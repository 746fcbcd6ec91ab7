/**
 * The spreadsheet side of the API (app/services/excel_service.py): header
 * normalisation and synonym lookup (`parse_metadata`), and the two-pass
 * image-to-row matcher (`map_images_to_metadata`) with its `deep_clean` key.
 *
 * The pass-1 and pass-2 searches are stated once here; the UI copy in gui.py
 * reuses them and differs only in the records it builds and in its fallback
 * loop (module Gui).
 */
module ExcelService {
  import opened Base
  import opened Text
  import opened Metadata

  // ===========================================================================
  // Parsing
  // ===========================================================================

  /** A spreadsheet as pandas reads it: the header row and the `str` of every cell. */
  datatype Sheet = Sheet(header: seq<string>, rows: seq<seq<string>>)

  /** A data frame has one cell per column in every row. */
  predicate Rectangular(sheet: Sheet)
  {
    forall r :: 0 <= r < |sheet.rows| ==> |sheet.rows[r]| == |sheet.header|
  }

  /** One parsed row: the canonical fields (a dict) and every cell, trimmed and upper-cased. */
  datatype SheetRow = SheetRow(fields: map<string, string>, rawValues: seq<string>)

  /** Canonical field names with their accepted header synonyms, in lookup order. */
  type ColumnMapping = seq<(string, seq<string>)>

  const ExcelColumnMapping: ColumnMapping := [
    ("product_code", ["product_code", "code", "p_code", "sku", "nazwa_bazowa", "nr_artykułu", "id"]),
    ("product_name", ["product_name", "name", "title", "nazwa_handlowa", "opis"]),
    ("product_type", ["product_type", "type", "category", "type_of_product", "rodzaj"]),
    ("gender", ["płeć", "gender", "sex"]),
    ("sport", ["sport_dominujący", "sport", "discipline"])
  ]

  /** `str(col).lower().strip().replace(' ', '_')`. */
  function NormalizeHeader(h: string): string
  {
    ReplaceChar(Strip(Lower(h)), ' ', '_')
  }

  function NormalizeHeaders(headers: seq<string>): (columns: seq<string>)
    ensures |columns| == |headers|
    ensures forall i :: 0 <= i < |headers| ==> columns[i] == NormalizeHeader(headers[i])
  {
    seq(|headers|, i requires 0 <= i < |headers| => NormalizeHeader(headers[i]))
  }

  /** The first column carrying a header name. */
  function IndexOf(xs: seq<string>, x: string): (i: nat)
    requires x in xs
    ensures i < |xs| && xs[i] == x
    ensures forall j :: 0 <= j < i ==> xs[j] != x
  {
    if xs[0] == x then 0 else 1 + IndexOf(xs[1..], x)
  }

  /** The first synonym, in list order, that is one of the column names. */
  function FirstPresent(synonyms: seq<string>, columns: seq<string>): (r: Option<string>)
    ensures r.Some? ==> r.value in synonyms && r.value in columns
  {
    if synonyms == [] then None
    else if synonyms[0] in columns then Some(synonyms[0])
    else FirstPresent(synonyms[1..], columns)
  }

  /** The value stored for one canonical field, given what earlier entries stored. */
  function StoreField(prev: map<string, string>, key: string, synonyms: seq<string>,
                      columns: seq<string>, cells: seq<string>): map<string, string>
    requires |cells| == |columns|
  {
    match FirstPresent(synonyms, columns)
    case Some(s) => prev[key := cells[IndexOf(columns, s)]]
    case None => if key in prev then prev else prev[key := NA]
  }

  /** The dict filled key by key for the entries of `mapping`, in order. */
  function Fields(mapping: ColumnMapping, columns: seq<string>, cells: seq<string>): map<string, string>
    requires |cells| == |columns|
  {
    if mapping == [] then map[]
    else
      var last := mapping[|mapping| - 1];
      StoreField(Fields(mapping[..|mapping| - 1], columns, cells), last.0, last.1, columns, cells)
  }

  /** `[str(v).strip().upper() for v in row.values]`. */
  function RawValues(cells: seq<string>): (raw: seq<string>)
    ensures |raw| == |cells|
  {
    seq(|cells|, i requires 0 <= i < |cells| => Upper(Strip(cells[i])))
  }

  function ParseRow(mapping: ColumnMapping, columns: seq<string>, cells: seq<string>): SheetRow
    requires |cells| == |columns|
  {
    SheetRow(Fields(mapping, columns, cells), RawValues(cells))
  }

  /** What parsing yields for the sheet: one row record per data row, in order. */
  function ParseSpec(sheet: Sheet, mapping: ColumnMapping): (parsed: seq<SheetRow>)
    requires Rectangular(sheet)
    ensures |parsed| == |sheet.rows|
  {
    var columns := NormalizeHeaders(sheet.header);
    seq(|sheet.rows|, r requires 0 <= r < |sheet.rows| => ParseRow(mapping, columns, sheet.rows[r]))
  }

  /** The synonym loop for one canonical field: the first variation that is a column. */
  method FindColumn(variations: seq<string>, columns: seq<string>) returns (found: Option<string>)
    ensures found == FirstPresent(variations, columns)
  {
    var k := 0;
    while k < |variations|
      invariant 0 <= k <= |variations|
      invariant FirstPresent(variations, columns) == FirstPresent(variations[k..], columns)
    {
      if variations[k] in columns {
        return Some(variations[k]);
      }
      assert variations[k..][1..] == variations[k + 1..];
      k := k + 1;
    }
    return None;
  }

  /** One row's dict, filled key by key; a field with no synonym present gets "N/A". */
  method ParseCells(mapping: ColumnMapping, columns: seq<string>, row: seq<string>)
      returns (metadata: map<string, string>)
    requires |row| == |columns|
    ensures metadata == Fields(mapping, columns, row)
  {
    metadata := map[];
    var j := 0;
    while j < |mapping|
      invariant 0 <= j <= |mapping|
      invariant metadata == Fields(mapping[..j], columns, row)
    {
      var key := mapping[j].0;
      var found := FindColumn(mapping[j].1, columns);
      if found.Some? {
        metadata := metadata[key := row[IndexOf(columns, found.value)]];
      }
      if key !in metadata {
        metadata := metadata[key := NA];
      }
      assert mapping[..j + 1][..j] == mapping[..j];
      j := j + 1;
    }
    assert mapping[..|mapping|] == mapping;
  }

  /**
   * The parsing loop of `parse_metadata` (and of gui.py's `parse_excel`) for a
   * given column mapping: normalises the headers, then builds one row record
   * per data row, in order.
   */
  method ParseRows(sheet: Sheet, mapping: ColumnMapping) returns (results: seq<SheetRow>)
    requires Rectangular(sheet)
    ensures results == ParseSpec(sheet, mapping)
  {
    var columns := NormalizeHeaders(sheet.header);
    results := [];
    var r := 0;
    while r < |sheet.rows|
      invariant 0 <= r <= |sheet.rows|
      invariant results == ParseSpec(sheet, mapping)[..r]
    {
      var row := sheet.rows[r];
      var metadata := ParseCells(mapping, columns, row);
      results := results + [SheetRow(metadata, RawValues(row))];
      r := r + 1;
    }
  }

  /** `ExcelService.parse_metadata` on an already-read sheet: the five canonical fields. */
  method ParseMetadata(sheet: Sheet) returns (results: seq<SheetRow>)
    requires Rectangular(sheet)
    ensures results == ParseSpec(sheet, ExcelColumnMapping)
    ensures forall r :: 0 <= r < |results| ==>
      results[r].fields.Keys == {"product_code", "product_name", "product_type", "gender", "sport"}
  {
    results := ParseRows(sheet, ExcelColumnMapping);
    forall r | 0 <= r < |results|
      ensures results[r].fields.Keys == {"product_code", "product_name", "product_type", "gender", "sport"}
    {
      FieldsKeys(ExcelColumnMapping, NormalizeHeaders(sheet.header), sheet.rows[r]);
      ExcelMappingKeys();
    }
  }

  // ---------------------------------------------------------------------------
  // Parsing lemmas
  // ---------------------------------------------------------------------------

  function MappingKeys(mapping: ColumnMapping): set<string>
  {
    set j | 0 <= j < |mapping| :: mapping[j].0
  }

  predicate DistinctKeys(mapping: ColumnMapping)
  {
    forall a, b :: 0 <= a < b < |mapping| ==> mapping[a].0 != mapping[b].0
  }

  lemma ExcelMappingKeys()
    ensures MappingKeys(ExcelColumnMapping) == {"product_code", "product_name", "product_type", "gender", "sport"}
    ensures DistinctKeys(ExcelColumnMapping)
  {
    var m := ExcelColumnMapping;
    assert m[0].0 == "product_code" && m[1].0 == "product_name" && m[2].0 == "product_type";
    assert m[3].0 == "gender" && m[4].0 == "sport";
  }

  /** The search for the first present synonym, stated by position in the synonym list. */
  lemma {:induction false} FirstPresentSpec(synonyms: seq<string>, columns: seq<string>)
    ensures FirstPresent(synonyms, columns).None? <==> forall j :: 0 <= j < |synonyms| ==> synonyms[j] !in columns
    ensures FirstPresent(synonyms, columns).Some? ==>
      exists j :: 0 <= j < |synonyms| && synonyms[j] == FirstPresent(synonyms, columns).value
        && synonyms[j] in columns && forall j' :: 0 <= j' < j ==> synonyms[j'] !in columns
  {
    if synonyms != [] && synonyms[0] !in columns {
      FirstPresentSpec(synonyms[1..], columns);
      if FirstPresent(synonyms, columns).Some? {
        var j :| 0 <= j < |synonyms[1..]| && synonyms[1..][j] == FirstPresent(synonyms, columns).value
          && synonyms[1..][j] in columns && forall j' :: 0 <= j' < j ==> synonyms[1..][j'] !in columns;
        assert synonyms[j + 1] == synonyms[1..][j];
        assert forall j' :: 0 <= j' < j + 1 ==> synonyms[j'] !in columns by {
          forall j' | 0 < j' < j + 1 ensures synonyms[j'] !in columns {
            assert synonyms[j'] == synonyms[1..][j' - 1];
          }
        }
      } else {
        assert forall j :: 0 < j < |synonyms| ==> synonyms[j] == synonyms[1..][j - 1];
      }
    } else if synonyms != [] {
      assert synonyms[0] == FirstPresent(synonyms, columns).value;
    }
  }

  /** Every canonical field of the mapping gets a value, and no other key appears. */
  lemma {:induction false} FieldsKeys(mapping: ColumnMapping, columns: seq<string>, cells: seq<string>)
    requires |cells| == |columns|
    ensures Fields(mapping, columns, cells).Keys == MappingKeys(mapping)
  {
    if mapping != [] {
      var init := mapping[..|mapping| - 1];
      FieldsKeys(init, columns, cells);
      assert MappingKeys(mapping) == MappingKeys(init) + {mapping[|mapping| - 1].0} by {
        forall x | x in MappingKeys(mapping) ensures x in MappingKeys(init) + {mapping[|mapping| - 1].0} {
          var j :| 0 <= j < |mapping| && mapping[j].0 == x;
          if j < |mapping| - 1 { assert init[j] == mapping[j]; }
        }
        forall x | x in MappingKeys(init) ensures x in MappingKeys(mapping) {
          var j :| 0 <= j < |init| && init[j].0 == x;
          assert mapping[j] == init[j];
        }
      }
    }
  }

  /**
   * The value of a canonical field: the cell under the first synonym (in list
   * order) present among the normalised headers, or "N/A" when none is.
   */
  lemma {:induction false} FieldValueRule(mapping: ColumnMapping, columns: seq<string>, cells: seq<string>, j: nat)
    requires |cells| == |columns|
    requires DistinctKeys(mapping)
    requires j < |mapping|
    ensures mapping[j].0 in Fields(mapping, columns, cells)
    ensures Fields(mapping, columns, cells)[mapping[j].0] ==
      match FirstPresent(mapping[j].1, columns)
      case Some(s) => cells[IndexOf(columns, s)]
      case None => NA
  {
    var init := mapping[..|mapping| - 1];
    assert DistinctKeys(init) by {
      forall a, b | 0 <= a < b < |init| ensures init[a].0 != init[b].0 {
        assert init[a] == mapping[a] && init[b] == mapping[b];
      }
    }
    if j < |mapping| - 1 {
      assert init[j] == mapping[j];
      FieldValueRule(init, columns, cells, j);
    } else {
      FieldsKeys(init, columns, cells);
      assert mapping[j].0 !in MappingKeys(init) by {
        forall a | 0 <= a < |init| ensures init[a].0 != mapping[j].0 {
          assert init[a] == mapping[a];
        }
      }
    }
  }

  /** A parsed row carries one raw value per cell, in column order, trimmed then upper-cased. */
  lemma RawValuesRule(cells: seq<string>, i: nat)
    requires i < |cells|
    ensures |RawValues(cells)| == |cells|
    ensures RawValues(cells)[i] == Upper(Strip(cells[i]))
    ensures var v := RawValues(cells)[i];
      (v == [] || (!IsSpace(v[0]) && !IsSpace(v[|v| - 1])))
      && forall c :: 0 <= c < |v| ==> !IsAsciiLower(v[c])
  {
    var s := Strip(cells[i]);
    assert RawValues(cells)[i] == Upper(s);
    UpperStripped(s);
  }

  /** Upper-casing a stripped string keeps it stripped and leaves no lower-case ASCII letter. */
  lemma UpperStripped(s: string)
    requires s == [] || (!IsSpace(s[0]) && !IsSpace(s[|s| - 1]))
    ensures var v := Upper(s);
      (v == [] || (!IsSpace(v[0]) && !IsSpace(v[|v| - 1])))
      && forall c :: 0 <= c < |v| ==> !IsAsciiLower(v[c])
  {
    var v := Upper(s);
    forall c | 0 <= c < |v| ensures !IsAsciiLower(v[c]) {
      UpperCharSpace(s[c]);
    }
    if v != [] {
      UpperCharSpace(s[0]);
      UpperCharSpace(s[|s| - 1]);
    }
  }

  /**
   * A normalised header holds no space and no upper-case ASCII letter, and
   * neither starts nor ends with whitespace.
   */
  lemma NormalizedHeaderShape(h: string)
    ensures var n := NormalizeHeader(h);
      (forall i :: 0 <= i < |n| ==> n[i] != ' ' && !IsAsciiUpper(n[i]))
      && (n == [] || (!IsSpace(n[0]) && !IsSpace(n[|n| - 1])))
  {
    var l := Lower(h);
    var s := Strip(l);
    var n := NormalizeHeader(h);
    forall i | 0 <= i < |n| ensures n[i] != ' ' && !IsAsciiUpper(n[i]) {
      var lo := LeadingSpaces(l);
      assert s[i] == l[lo + i];
      assert l[lo + i] == LowerChar(h[lo + i]);
    }
  }

  // ===========================================================================
  // Matching
  // ===========================================================================

  predicate IsCleanChar(c: char) { IsAsciiUpper(c) || IsDigit(c) }

  /** `re.sub(r'[^A-Z0-9]', '', s)`. */
  function KeepClean(s: string): (r: string)
    ensures |r| <= |s|
    ensures forall i :: 0 <= i < |r| ==> IsCleanChar(r[i])
  {
    if s == [] then [] else (if IsCleanChar(s[0]) then [s[0]] else []) + KeepClean(s[1..])
  }

  /** `deep_clean`: upper-case, then keep only `A-Z` and `0-9`. */
  function DeepClean(s: string): (r: string)
    ensures forall i :: 0 <= i < |r| ==> IsCleanChar(r[i])
  {
    KeepClean(Upper(s))
  }

  /** Shorter cleaned candidates never take part in pass 1 or pass 2. */
  const MinCleanLength: nat := 2

  /** Empty and "N/A" (in any case) candidates are skipped before cleaning. */
  predicate Skipped(raw: string)
  {
    raw == [] || Upper(raw) == NA
  }

  /** Equal, or either is a prefix of the other. */
  predicate Related(clean: string, key: string)
  {
    clean == key || clean <= key || key <= clean
  }

  /** The pass-1 test of one candidate against the cleaned image key. */
  predicate Pass1Accepts(raw: string, key: string)
  {
    !Skipped(raw) && |DeepClean(raw)| >= MinCleanLength && Related(DeepClean(raw), key)
  }

  /** The pass-1 candidates of a row: code, name, then every raw cell. */
  function Candidates(row: SheetRow): seq<string>
  {
    [Get(row.fields, "product_code", ""), Get(row.fields, "product_name", "")] + row.rawValues
  }

  /** The pass-2 candidates of a row: code, then every raw cell. */
  function FallbackCandidates(row: SheetRow): seq<string>
  {
    [Get(row.fields, "product_code", "")] + row.rawValues
  }

  /** Where a search succeeded: the row index and the raw candidate that matched. */
  datatype Hit = Hit(row: nat, raw: string)

  function FirstAccepted(candidates: seq<string>, key: string): (r: Option<string>)
    ensures r.Some? ==> r.value in candidates && Pass1Accepts(r.value, key)
  {
    if candidates == [] then None
    else if Pass1Accepts(candidates[0], key) then Some(candidates[0])
    else FirstAccepted(candidates[1..], key)
  }

  function Pass1From(rows: seq<SheetRow>, key: string, from: nat): (h: Option<Hit>)
    requires from <= |rows|
    ensures h.Some? ==> (from <= h.value.row < |rows| && h.value.raw in Candidates(rows[h.value.row])
      && Pass1Accepts(h.value.raw, key))
    decreases |rows| - from
  {
    if from == |rows| then None
    else match FirstAccepted(Candidates(rows[from]), key)
      case Some(raw) => Some(Hit(from, raw))
      case None => Pass1From(rows, key, from + 1)
  }

  /** Pass 1: the first row, and in it the first candidate, that the key accepts. */
  function Pass1(rows: seq<SheetRow>, key: string): (h: Option<Hit>)
    ensures h.Some? ==> (h.value.row < |rows| && h.value.raw in Candidates(rows[h.value.row])
      && Pass1Accepts(h.value.raw, key))
  {
    Pass1From(rows, key, 0)
  }

  function FirstEqual(candidates: seq<string>, token: string): (r: Option<string>)
    ensures r.Some? ==> r.value in candidates && DeepClean(r.value) == token
  {
    if candidates == [] then None
    else if DeepClean(candidates[0]) == token then Some(candidates[0])
    else FirstEqual(candidates[1..], token)
  }

  function Pass2From(rows: seq<SheetRow>, token: string, from: nat): (h: Option<Hit>)
    requires from <= |rows|
    ensures h.Some? ==> (from <= h.value.row < |rows| && h.value.raw in FallbackCandidates(rows[h.value.row])
      && DeepClean(h.value.raw) == token)
    decreases |rows| - from
  {
    if from == |rows| then None
    else match FirstEqual(FallbackCandidates(rows[from]), token)
      case Some(raw) => Some(Hit(from, raw))
      case None => Pass2From(rows, token, from + 1)
  }

  /** Pass 2: the first row, and in it the first code or cell, whose cleaned form is the token. */
  function Pass2(rows: seq<SheetRow>, token: string): (h: Option<Hit>)
    ensures h.Some? ==> (h.value.row < |rows| && h.value.raw in FallbackCandidates(rows[h.value.row])
      && DeepClean(h.value.raw) == token)
  {
    Pass2From(rows, token, 0)
  }

  /** The cleaned image key: the extension dropped, then `deep_clean`. */
  function ImageKey(img: string): string
  {
    DeepClean(Root(img))
  }

  /** The pass-2 token: the cleaned first `-`/`_`/space-delimited piece of the base name. */
  function FallbackToken(img: string): string
  {
    DeepClean(FirstToken(Root(img)))
  }

  /** The record a pass-1 match builds in excel_service.py. */
  function Pass1Record(row: SheetRow, cleanVal: string, img: string): ProductMetadata
  {
    var pCode := Get(row.fields, "product_code", "");
    var finalName := Get(row.fields, "product_name", "Fashion Item");
    var finalType := Get(row.fields, "product_type", "Garment");
    Record(if pCode != NA then pCode else cleanVal,
           if finalName != NA then finalName else "Product",
           if finalType != NA then finalType else "Fashion",
           Get(row.fields, "gender", NA), Get(row.fields, "sport", NA), img)
  }

  /** The record a pass-2 match builds in excel_service.py: the raw value is the code. */
  function Pass2Record(row: SheetRow, rawVal: string, img: string): ProductMetadata
  {
    Record(rawVal,
           Get(row.fields, "product_name", "Fashion Item"),
           Get(row.fields, "product_type", "Garment"),
           Get(row.fields, "gender", NA), Get(row.fields, "sport", NA), img)
  }

  /** What the matcher emits for one image: a pass-1 record, else a pass-2 record, else nothing. */
  function MatchImage(rows: seq<SheetRow>, img: string): Option<ProductMetadata>
  {
    match Pass1(rows, ImageKey(img))
    case Some(h) => Some(Pass1Record(rows[h.row], DeepClean(h.raw), img))
    case None =>
      var prefix := FallbackToken(img);
      if |prefix| >= MinCleanLength then
        match Pass2(rows, prefix)
        case Some(h) => Some(Pass2Record(rows[h.row], h.raw, img))
        case None => None
      else None
  }

  /** The records for a list of images, image by image. */
  function MapImages(rows: seq<SheetRow>, images: seq<string>): seq<ProductMetadata>
  {
    if images == [] then []
    else MapImages(rows, images[..|images| - 1]) + OptionToSeq(MatchImage(rows, images[|images| - 1]))
  }

  /**
   * The pass-1 scan of `map_images_to_metadata`: rows in order, and in each row
   * its candidates in order, skipping empty, "N/A" and short candidates; the
   * first related candidate ends both loops.
   */
  method ScanPass1(rows: seq<SheetRow>, cleanImgName: string) returns (hit: Option<Hit>)
    ensures hit == Pass1(rows, cleanImgName)
  {
    var r := 0;
    while r < |rows|
      invariant 0 <= r <= |rows|
      invariant Pass1(rows, cleanImgName) == Pass1From(rows, cleanImgName, r)
    {
      var rowDict := rows[r];
      var pCode := Get(rowDict.fields, "product_code", "");
      var pName := Get(rowDict.fields, "product_name", "");
      var allVals := [pCode, pName] + rowDict.rawValues;
      assert allVals == Candidates(rowDict);
      var found := ScanValues(allVals, cleanImgName);
      if found.Some? {
        return Some(Hit(r, found.value));
      }
      r := r + 1;
    }
    return None;
  }

  /**
   * The value loop of pass 1 for one row: skip empty, "N/A" and short
   * candidates; the first related one sets `match_found` and breaks.
   */
  method ScanValues(allVals: seq<string>, cleanImgName: string) returns (found: Option<string>)
    ensures found == FirstAccepted(allVals, cleanImgName)
  {
    var k := 0;
    while k < |allVals|
      invariant 0 <= k <= |allVals|
      invariant FirstAccepted(allVals, cleanImgName) == FirstAccepted(allVals[k..], cleanImgName)
    {
      var rawVal := allVals[k];
      assert allVals[k..][1..] == allVals[k + 1..];
      if rawVal == [] || Upper(rawVal) == NA {
        k := k + 1;
        continue;
      }
      var cleanVal := DeepClean(rawVal);
      if |cleanVal| < MinCleanLength {
        k := k + 1;
        continue;
      }
      if cleanVal == cleanImgName || cleanVal <= cleanImgName || cleanImgName <= cleanVal {
        return Some(rawVal);
      }
      k := k + 1;
    }
    return None;
  }

  /**
   * The pass-2 scan: rows in order, and in each row its code and cells in
   * order, looking for a cleaned value equal to the token; the first one ends
   * both loops.
   */
  method ScanPass2(rows: seq<SheetRow>, prefix: string) returns (hit: Option<Hit>)
    ensures hit == Pass2(rows, prefix)
  {
    var r := 0;
    while r < |rows|
      invariant 0 <= r <= |rows|
      invariant Pass2(rows, prefix) == Pass2From(rows, prefix, r)
    {
      var rowDict := rows[r];
      var vals := [Get(rowDict.fields, "product_code", "")] + rowDict.rawValues;
      assert vals == FallbackCandidates(rowDict);
      var k := 0;
      while k < |vals|
        invariant 0 <= k <= |vals|
        invariant FirstEqual(vals, prefix) == FirstEqual(vals[k..], prefix)
      {
        assert vals[k..][1..] == vals[k + 1..];
        if DeepClean(vals[k]) == prefix {
          assert FirstEqual(vals, prefix) == Some(vals[k]);
          return Some(Hit(r, vals[k]));
        }
        k := k + 1;
      }
      assert FirstEqual(vals[k..], prefix) == None;
      r := r + 1;
    }
    return None;
  }

  /**
   * The body of the image loop: pass 1, and only when it found nothing, pass 2
   * on a token of at least two characters.
   */
  method MatchOne(rows: seq<SheetRow>, imgFilename: string) returns (m: Option<ProductMetadata>)
    ensures m == MatchImage(rows, imgFilename)
  {
    var imgBase := Root(imgFilename);
    var cleanImgName := DeepClean(imgBase);
    var hit := ScanPass1(rows, cleanImgName);
    if hit.Some? {
      return Some(Pass1Record(rows[hit.value.row], DeepClean(hit.value.raw), imgFilename));
    }
    var prefix := DeepClean(FirstToken(imgBase));
    if |prefix| >= MinCleanLength {
      var fallback := ScanPass2(rows, prefix);
      if fallback.Some? {
        return Some(Pass2Record(rows[fallback.value.row], fallback.value.raw, imgFilename));
      }
    }
    return None;
  }

  /**
   * `map_images_to_metadata`: one record, carrying the image's file name, per
   * image that either pass matched, in image order.
   */
  method MapImagesToMetadata(rows: seq<SheetRow>, images: seq<string>) returns (mapped: seq<ProductMetadata>)
    ensures mapped == MapImages(rows, images)
  {
    mapped := [];
    var i := 0;
    while i < |images|
      invariant 0 <= i <= |images|
      invariant mapped == MapImages(rows, images[..i])
    {
      MapImagesSnoc(rows, images, i);
      var m := MatchOne(rows, images[i]);
      if m.Some? {
        mapped := mapped + [m.value];
      }
      i := i + 1;
    }
    assert images[..|images|] == images;
  }

  lemma MapImagesSnoc(rows: seq<SheetRow>, images: seq<string>, i: nat)
    requires i < |images|
    ensures MapImages(rows, images[..i + 1]) == MapImages(rows, images[..i]) + OptionToSeq(MatchImage(rows, images[i]))
  {
    assert images[..i + 1][..i] == images[..i];
  }

  // ---------------------------------------------------------------------------
  // Matching lemmas
  // ---------------------------------------------------------------------------

  /** The candidate search, stated by position: the first accepted candidate, or none at all. */
  lemma {:induction false} FirstAcceptedSpec(candidates: seq<string>, key: string)
    ensures FirstAccepted(candidates, key).None? <==>
      forall c :: 0 <= c < |candidates| ==> !Pass1Accepts(candidates[c], key)
    ensures FirstAccepted(candidates, key).Some? ==>
      exists c :: 0 <= c < |candidates| && candidates[c] == FirstAccepted(candidates, key).value
        && forall c' :: 0 <= c' < c ==> !Pass1Accepts(candidates[c'], key)
  {
    if candidates != [] && !Pass1Accepts(candidates[0], key) {
      var tail := candidates[1..];
      FirstAcceptedSpec(tail, key);
      assert forall c :: 0 < c < |candidates| ==> candidates[c] == tail[c - 1];
      if FirstAccepted(tail, key).Some? {
        var c :| 0 <= c < |tail| && tail[c] == FirstAccepted(tail, key).value
          && forall c' :: 0 <= c' < c ==> !Pass1Accepts(tail[c'], key);
        assert candidates[c + 1] == tail[c];
      }
    } else if candidates != [] {
      assert candidates[0] == FirstAccepted(candidates, key).value;
    }
  }

  /** The equality search of pass 2, stated by position. */
  lemma {:induction false} FirstEqualSpec(candidates: seq<string>, token: string)
    ensures FirstEqual(candidates, token).None? <==>
      forall c :: 0 <= c < |candidates| ==> DeepClean(candidates[c]) != token
    ensures FirstEqual(candidates, token).Some? ==>
      exists c :: 0 <= c < |candidates| && candidates[c] == FirstEqual(candidates, token).value
        && forall c' :: 0 <= c' < c ==> DeepClean(candidates[c']) != token
  {
    if candidates != [] && DeepClean(candidates[0]) != token {
      var tail := candidates[1..];
      FirstEqualSpec(tail, token);
      assert forall c :: 0 < c < |candidates| ==> candidates[c] == tail[c - 1];
      if FirstEqual(tail, token).Some? {
        var c :| 0 <= c < |tail| && tail[c] == FirstEqual(tail, token).value
          && forall c' :: 0 <= c' < c ==> DeepClean(tail[c']) != token;
        assert candidates[c + 1] == tail[c];
      }
    } else if candidates != [] {
      assert candidates[0] == FirstEqual(candidates, token).value;
    }
  }

  /** Some candidate of the row passes the pass-1 test. */
  predicate RowAccepts(row: SheetRow, key: string)
  {
    exists c :: 0 <= c < |Candidates(row)| && Pass1Accepts(Candidates(row)[c], key)
  }

  /**
   * Pass 1 from a row on: nothing when no later row has an accepted
   * candidate; otherwise the first such row, with its first accepted candidate.
   */
  lemma Pass1FromSpec(rows: seq<SheetRow>, key: string, from: nat)
    requires from <= |rows|
    ensures Pass1From(rows, key, from).None? <==> forall r :: from <= r < |rows| ==> !RowAccepts(rows[r], key)
    ensures Pass1From(rows, key, from).Some? ==>
      var h := Pass1From(rows, key, from).value;
      RowAccepts(rows[h.row], key) && FirstAccepted(Candidates(rows[h.row]), key) == Some(h.raw)
      && forall r :: from <= r < h.row ==> !RowAccepts(rows[r], key)
  {
    Pass1FromNone(rows, key, from);
    Pass1FromSome(rows, key, from);
  }

  lemma {:induction false} Pass1FromNone(rows: seq<SheetRow>, key: string, from: nat)
    requires from <= |rows|
    ensures Pass1From(rows, key, from).None? <==> forall r :: from <= r < |rows| ==> !RowAccepts(rows[r], key)
    decreases |rows| - from
  {
    if from < |rows| {
      RowAcceptsSpec(rows[from], key);
      Pass1FromNone(rows, key, from + 1);
    }
  }

  lemma {:induction false} Pass1FromSome(rows: seq<SheetRow>, key: string, from: nat)
    requires from <= |rows|
    ensures Pass1From(rows, key, from).Some? ==>
      var h := Pass1From(rows, key, from).value;
      RowAccepts(rows[h.row], key) && FirstAccepted(Candidates(rows[h.row]), key) == Some(h.raw)
      && forall r :: from <= r < h.row ==> !RowAccepts(rows[r], key)
    decreases |rows| - from
  {
    if from < |rows| {
      RowAcceptsSpec(rows[from], key);
      Pass1FromSome(rows, key, from + 1);
    }
  }

  /** A row has an accepted candidate exactly when its candidate search finds one. */
  lemma RowAcceptsSpec(row: SheetRow, key: string)
    ensures RowAccepts(row, key) <==> FirstAccepted(Candidates(row), key).Some?
  {
    FirstAcceptedSpec(Candidates(row), key);
  }

  /**
   * Pass 1 finds a match exactly when some row has an accepted candidate, and
   * then it is the first such row and, in it, the first accepted candidate.
   */
  lemma Pass1Spec(rows: seq<SheetRow>, key: string)
    ensures Pass1(rows, key).None? <==> forall r :: 0 <= r < |rows| ==> !RowAccepts(rows[r], key)
    ensures Pass1(rows, key).Some? ==>
      var h := Pass1(rows, key).value;
      RowAccepts(rows[h.row], key) && FirstAccepted(Candidates(rows[h.row]), key) == Some(h.raw)
      && forall r :: 0 <= r < h.row ==> !RowAccepts(rows[r], key)
  {
    Pass1FromSpec(rows, key, 0);
  }

  /** Some code or cell of the row cleans to the token. */
  predicate RowHasToken(row: SheetRow, token: string)
  {
    exists c :: 0 <= c < |FallbackCandidates(row)| && DeepClean(FallbackCandidates(row)[c]) == token
  }

  lemma Pass2FromSpec(rows: seq<SheetRow>, token: string, from: nat)
    requires from <= |rows|
    ensures Pass2From(rows, token, from).None? <==> forall r :: from <= r < |rows| ==> !RowHasToken(rows[r], token)
    ensures Pass2From(rows, token, from).Some? ==>
      var h := Pass2From(rows, token, from).value;
      RowHasToken(rows[h.row], token) && FirstEqual(FallbackCandidates(rows[h.row]), token) == Some(h.raw)
      && forall r :: from <= r < h.row ==> !RowHasToken(rows[r], token)
  {
    Pass2FromNone(rows, token, from);
    Pass2FromSome(rows, token, from);
  }

  lemma {:induction false} Pass2FromNone(rows: seq<SheetRow>, token: string, from: nat)
    requires from <= |rows|
    ensures Pass2From(rows, token, from).None? <==> forall r :: from <= r < |rows| ==> !RowHasToken(rows[r], token)
    decreases |rows| - from
  {
    if from < |rows| {
      RowHasTokenSpec(rows[from], token);
      Pass2FromNone(rows, token, from + 1);
    }
  }

  lemma {:induction false} Pass2FromSome(rows: seq<SheetRow>, token: string, from: nat)
    requires from <= |rows|
    ensures Pass2From(rows, token, from).Some? ==>
      var h := Pass2From(rows, token, from).value;
      RowHasToken(rows[h.row], token) && FirstEqual(FallbackCandidates(rows[h.row]), token) == Some(h.raw)
      && forall r :: from <= r < h.row ==> !RowHasToken(rows[r], token)
    decreases |rows| - from
  {
    if from < |rows| {
      RowHasTokenSpec(rows[from], token);
      Pass2FromSome(rows, token, from + 1);
    }
  }

  /** A row holds the token exactly when its equality search finds it. */
  lemma RowHasTokenSpec(row: SheetRow, token: string)
    ensures RowHasToken(row, token) <==> FirstEqual(FallbackCandidates(row), token).Some?
  {
    FirstEqualSpec(FallbackCandidates(row), token);
  }

  /** Pass 2 finds the first row holding a value that cleans to the token, and nothing when none does. */
  lemma Pass2Spec(rows: seq<SheetRow>, token: string)
    ensures Pass2(rows, token).None? <==> forall r :: 0 <= r < |rows| ==> !RowHasToken(rows[r], token)
    ensures Pass2(rows, token).Some? ==>
      var h := Pass2(rows, token).value;
      RowHasToken(rows[h.row], token) && FirstEqual(FallbackCandidates(rows[h.row]), token) == Some(h.raw)
      && forall r :: 0 <= r < h.row ==> !RowHasToken(rows[r], token)
  {
    Pass2FromSpec(rows, token, 0);
  }

  lemma {:induction false} KeepCleanAppend(a: string, b: string)
    ensures KeepClean(a + b) == KeepClean(a) + KeepClean(b)
  {
    if a != [] {
      assert (a + b)[0] == a[0] && (a + b)[1..] == a[1..] + b;
      KeepCleanAppend(a[1..], b);
      var head := if IsCleanChar(a[0]) then [a[0]] else [];
      assert KeepClean(a + b) == head + (KeepClean(a[1..]) + KeepClean(b));
      assert KeepClean(a) == head + KeepClean(a[1..]);
    } else {
      assert a + b == b;
    }
  }

  /** `deep_clean` works character by character, so it distributes over concatenation. */
  lemma DeepCleanAppend(a: string, b: string)
    ensures DeepClean(a + b) == DeepClean(a) + DeepClean(b)
  {
    assert Upper(a + b) == Upper(a) + Upper(b);
    KeepCleanAppend(Upper(a), Upper(b));
  }

  lemma {:induction false} KeepCleanOfClean(s: string)
    requires forall i :: 0 <= i < |s| ==> IsCleanChar(s[i])
    ensures KeepClean(s) == s
  {
    if s != [] {
      KeepCleanOfClean(s[1..]);
    }
  }

  /** A cleaned key is already clean: `deep_clean` is idempotent. */
  lemma DeepCleanIdempotent(s: string)
    ensures DeepClean(DeepClean(s)) == DeepClean(s)
  {
    var d := DeepClean(s);
    assert Upper(d) == d by {
      forall i | 0 <= i < |d| ensures Upper(d)[i] == d[i] {
        assert IsCleanChar(d[i]);
      }
    }
    KeepCleanOfClean(d);
  }

  /** The pass-2 token is always a prefix of the pass-1 key of the same image. */
  lemma FallbackTokenIsKeyPrefix(img: string)
    ensures FallbackToken(img) <= ImageKey(img)
  {
    var base := Root(img);
    var t := FirstToken(base);
    assert base == t + base[|t|..];
    DeepCleanAppend(t, base[|t|..]);
  }

  /**
   * The fallback pass can only rescue an image whose pass 1 failed through a
   * value that reads "N/A": every other value it could find is related to the
   * image key and would have been accepted by pass 1 already. The token is
   * then "NA".
   */
  lemma Pass2OnlyFindsNA(rows: seq<SheetRow>, img: string)
    requires Pass1(rows, ImageKey(img)).None?
    requires |FallbackToken(img)| >= MinCleanLength
    requires Pass2(rows, FallbackToken(img)).Some?
    ensures Upper(Pass2(rows, FallbackToken(img)).value.raw) == NA
    ensures FallbackToken(img) == "NA"
  {
    var key := ImageKey(img);
    var h := Pass2(rows, FallbackToken(img)).value;
    FallbackInCandidates(rows[h.row], h.raw);
    Pass1Spec(rows, key);
    NotAcceptedInRow(rows[h.row], key, h.raw);
    FallbackTokenIsKeyPrefix(img);
    RejectedToken(h.raw, key, FallbackToken(img));
  }

  /** Every pass-2 candidate of a row is also a pass-1 candidate of it. */
  lemma FallbackInCandidates(row: SheetRow, raw: string)
    requires raw in FallbackCandidates(row)
    ensures raw in Candidates(row)
  {
    var fc := FallbackCandidates(row);
    var i :| 0 <= i < |fc| && fc[i] == raw;
    var c := if i == 0 then 0 else i + 1;
    assert Candidates(row)[c] == raw;
  }

  lemma NotAcceptedInRow(row: SheetRow, key: string, raw: string)
    requires !RowAccepts(row, key)
    requires raw in Candidates(row)
    ensures !Pass1Accepts(raw, key)
  {
    var cands := Candidates(row);
    var c :| 0 <= c < |cands| && cands[c] == raw;
  }

  /**
   * A value pass 1 turned down although it cleans to a long enough prefix of
   * the key was skipped as "N/A", so it cleans to "NA".
   */
  lemma RejectedToken(raw: string, key: string, token: string)
    requires token <= key && |token| >= MinCleanLength
    requires DeepClean(raw) == token && !Pass1Accepts(raw, key)
    ensures Upper(raw) == NA && token == "NA"
  {
    assert Skipped(raw);
    assert raw != [];
    NaClean();
  }

  /**
   * Every record carries the image it was matched for and starts "pending";
   * a pass-1 record never has "N/A" as its code, because the cleaned value
   * that replaces an "N/A" code has no '/'.
   */
  lemma MatchImageRecord(rows: seq<SheetRow>, img: string)
    ensures MatchImage(rows, img).Some? ==>
      MatchImage(rows, img).value.imageFilename == Some(img) && MatchImage(rows, img).value.status == "pending"
    ensures Pass1(rows, ImageKey(img)).Some? ==>
      MatchImage(rows, img).Some? && MatchImage(rows, img).value.code != NA
  {
    match Pass1(rows, ImageKey(img))
    case Some(h) =>
      var cleanVal := DeepClean(h.raw);
      if Get(rows[h.row].fields, "product_code", "") == NA {
        assert IsCleanChar(cleanVal[1]) && !IsCleanChar(NA[1]);
      }
    case None =>
  }

  /**
   * The matcher emits at most one record per image, in image order: each
   * record names an image of the list, and an image matched by either pass
   * always yields one.
   */
  lemma MapImagesShape(rows: seq<SheetRow>, images: seq<string>)
    ensures |MapImages(rows, images)| <= |images|
    ensures forall k :: 0 <= k < |MapImages(rows, images)| ==>
      MapImages(rows, images)[k].imageFilename.Some? && MapImages(rows, images)[k].imageFilename.value in images
    ensures (forall k :: 0 <= k < |images| ==> MatchImage(rows, images[k]).Some?) ==>
      |MapImages(rows, images)| == |images|
  {
    MapImagesNamed(rows, images);
    MapImagesCount(rows, images);
  }

  /** Every record names one of the images. */
  predicate NamedIn(records: seq<ProductMetadata>, images: seq<string>)
  {
    forall k :: 0 <= k < |records| ==> records[k].imageFilename.Some? && records[k].imageFilename.value in images
  }

  lemma NamedSnoc(before: seq<ProductMetadata>, m: Option<ProductMetadata>, init: seq<string>, last: string)
    requires NamedIn(before, init)
    requires m.Some? ==> m.value.imageFilename == Some(last)
    ensures NamedIn(before + OptionToSeq(m), init + [last])
  {
    var all := before + OptionToSeq(m);
    forall k | 0 <= k < |all| ensures all[k].imageFilename.Some? && all[k].imageFilename.value in init + [last] {
      if k < |before| {
        assert all[k] == before[k];
        assert before[k].imageFilename.value in init;
      } else {
        assert all[k] == m.value;
        assert (init + [last])[|init|] == last;
      }
    }
  }

  lemma {:induction false} MapImagesNamed(rows: seq<SheetRow>, images: seq<string>)
    ensures NamedIn(MapImages(rows, images), images)
  {
    if images != [] {
      var n := |images| - 1;
      var init := images[..n];
      assert images == init + [images[n]];
      MapImagesNamed(rows, init);
      MatchImageRecord(rows, images[n]);
      NamedSnoc(MapImages(rows, init), MatchImage(rows, images[n]), init, images[n]);
    }
  }

  /** At most one record per image, and exactly one when every image matches. */
  lemma {:induction false} MapImagesCount(rows: seq<SheetRow>, images: seq<string>)
    ensures |MapImages(rows, images)| <= |images|
    ensures (forall k :: 0 <= k < |images| ==> MatchImage(rows, images[k]).Some?) ==>
      |MapImages(rows, images)| == |images|
  {
    if images != [] {
      var n := |images| - 1;
      var init := images[..n];
      MapImagesCount(rows, init);
      assert forall k :: 0 <= k < |init| ==> init[k] == images[k];
    }
  }

  // ---------------------------------------------------------------------------
  // A worked example: two rows whose code and name read "N/A"
  // ---------------------------------------------------------------------------

  lemma NaImageKeys()
    ensures ImageKey("na.png") == "NA" && FallbackToken("na.png") == "NA"
  {
    var img := "na.png";
    assert img[2] == '.' && img[0] != '.';
    assert LastIndexOf(img, '/') == -1;
    assert LastIndexOf(img, '.') == 2;
    assert Root(img) == "na";
    assert FirstToken("na") == "na";
    assert Upper("na") == "NA";
    assert KeepClean("NA") == "NA" by {
      assert "NA"[1..] == "A" && "A"[1..] == [];
    }
  }

  lemma Ab12ImageKey()
    ensures ImageKey("AB12.png") == "AB12"
  {
    var img := "AB12.png";
    assert img[4] == '.' && img[0] != '.';
    assert LastIndexOf(img, '/') == -1;
    assert LastIndexOf(img, '.') == 4;
    assert Root(img) == "AB12";
    Ab12Clean();
  }

  lemma Ab12Clean()
    ensures Upper("AB12") == "AB12" && DeepClean("AB12") == "AB12"
  {
    var s := "AB12";
    assert UpperChar('A') == 'A' && UpperChar('B') == 'B' && UpperChar('1') == '1' && UpperChar('2') == '2';
    assert Upper(s)[0] == s[0] && Upper(s)[1] == s[1] && Upper(s)[2] == s[2] && Upper(s)[3] == s[3];
    assert s[1..] == "B12" && "B12"[1..] == "12" && "12"[1..] == "2" && "2"[1..] == [];
    assert KeepClean("2") == "2";
    assert KeepClean("12") == "12";
    assert KeepClean("B12") == "B12";
  }

  lemma NaClean()
    ensures Skipped(NA) && DeepClean(NA) == "NA"
  {
    assert Upper(NA) == NA;
    assert NA[1..] == "/A" && "/A"[1..] == "A" && "A"[1..] == [];
    assert KeepClean("A") == "A";
    assert KeepClean("/A") == "A";
  }

  lemma RedClean()
    ensures Upper("RED") == "RED" && DeepClean("RED") == "RED"
  {
    var s := "RED";
    assert UpperChar('R') == 'R' && UpperChar('E') == 'E' && UpperChar('D') == 'D';
    assert Upper(s)[0] == s[0] && Upper(s)[1] == s[1] && Upper(s)[2] == s[2];
    assert s[1..] == "ED" && "ED"[1..] == "D" && "D"[1..] == [];
    assert KeepClean("D") == "D";
    assert KeepClean("ED") == "ED";
  }

  /** A cell reading "RED" is kept as it is among the raw values. */
  lemma RedRaw()
    ensures RawValues(["RED"]) == ["RED"]
  {
    assert !IsSpace('R') && !IsSpace('D');
    StripUnspaced("RED");
    RedClean();
    assert RawValues(["RED"])[0] == Upper(Strip("RED"));
  }

  /** A cell reading "AB12" is kept as it is among the raw values. */
  lemma Ab12Raw()
    ensures RawValues(["AB12"]) == ["AB12"]
  {
    assert !IsSpace('A') && !IsSpace('2');
    StripUnspaced("AB12");
    Ab12Clean();
    assert RawValues(["AB12"])[0] == Upper(Strip("AB12"));
  }

  /**
   * The sample spreadsheet: one column, "color", which no synonym names, so
   * every field of both rows defaults to "N/A"; the cells read "RED" and
   * "AB12".
   */
  const SampleSheet: Sheet := Sheet(["color"], [["RED"], ["AB12"]])

  /** Two rows with code and name "N/A" and the cells "RED" and "AB12": the shape the sample parses to. */
  predicate SampleShaped(rows: seq<SheetRow>)
  {
    |rows| == 2
    && Candidates(rows[0]) == [NA, NA, "RED"] && Candidates(rows[1]) == [NA, NA, "AB12"]
    && FallbackCandidates(rows[0]) == [NA, "RED"] && FallbackCandidates(rows[1]) == [NA, "AB12"]
  }

  /** `parse_metadata` on the sample spreadsheet. */
  function SampleRows(): seq<SheetRow>
  {
    assert Rectangular(SampleSheet);
    ParseSpec(SampleSheet, ExcelColumnMapping)
  }

  /** The sample's header normalises to itself and its cells are already trimmed and upper-case. */
  lemma SampleColumns()
    ensures NormalizeHeaders(SampleSheet.header) == ["color"]
    ensures RawValues(["RED"]) == ["RED"] && RawValues(["AB12"]) == ["AB12"]
  {
    ColorHeader();
    assert NormalizeHeaders(SampleSheet.header)[0] == NormalizeHeader("color");
    RedRaw();
    Ab12Raw();
  }

  lemma ColorHeader()
    ensures NormalizeHeader("color") == "color"
  {
    var h := "color";
    ColorLower();
    StripUnspaced(h);
    assert ReplaceChar(h, ' ', '_') == h;
  }

  lemma ColorLower()
    ensures Lower("color") == "color"
  {
    var h := "color";
    assert LowerChar('c') == 'c' && LowerChar('o') == 'o' && LowerChar('l') == 'l' && LowerChar('r') == 'r';
    assert Lower(h)[0] == h[0] && Lower(h)[1] == h[1] && Lower(h)[2] == h[2] && Lower(h)[3] == h[3] && Lower(h)[4] == h[4];
  }

  /**
   * Parsing the sample with any mapping whose code and name entries come
   * first and do not list "color" gives rows of the sample's shape.
   */
  lemma SampleParsed(mapping: ColumnMapping)
    requires DistinctKeys(mapping) && |mapping| >= 2
    requires mapping[0].0 == "product_code" && mapping[1].0 == "product_name"
    requires "color" !in mapping[0].1 && "color" !in mapping[1].1
    ensures Rectangular(SampleSheet) && SampleShaped(ParseSpec(SampleSheet, mapping))
  {
    var columns := NormalizeHeaders(SampleSheet.header);
    SampleColumns();
    assert FirstPresent(mapping[0].1, columns) == None;
    assert FirstPresent(mapping[1].1, columns) == None;
    var rows := ParseSpec(SampleSheet, mapping);
    forall r | 0 <= r < 2
      ensures Get(rows[r].fields, "product_code", "") == NA && Get(rows[r].fields, "product_name", "") == NA
    {
      assert rows[r].fields == Fields(mapping, columns, SampleSheet.rows[r]);
      FieldValueRule(mapping, columns, SampleSheet.rows[r], 0);
      FieldValueRule(mapping, columns, SampleSheet.rows[r], 1);
    }
    assert rows[0].rawValues == ["RED"] && rows[1].rawValues == ["AB12"];
  }

  /** The API's parse of the sample has the sample's shape. */
  lemma SampleRowsShaped()
    ensures SampleShaped(SampleRows())
  {
    ExcelMappingKeys();
    SampleParsed(ExcelColumnMapping);
  }

  /** Neither sample row has a pass-1 candidate for the key "NA". */
  lemma SampleRowsRejectNA(rows: seq<SheetRow>)
    requires SampleShaped(rows)
    ensures FirstAccepted(Candidates(rows[0]), "NA") == None
    ensures FirstAccepted(Candidates(rows[1]), "NA") == None
  {
    NaClean();
    RedClean();
    Ab12Clean();
    assert !Pass1Accepts(NA, "NA");
    assert !Pass1Accepts("RED", "NA");
    assert !Pass1Accepts("AB12", "NA");
    FirstAcceptedSpec(Candidates(rows[0]), "NA");
    FirstAcceptedSpec(Candidates(rows[1]), "NA");
  }

  lemma SampleNaPass1(rows: seq<SheetRow>)
    requires SampleShaped(rows)
    ensures Pass1(rows, "NA").None?
  {
    SampleRowsRejectNA(rows);
    assert Pass1From(rows, "NA", 2) == None;
    assert Pass1From(rows, "NA", 1) == None;
  }

  lemma SampleNaPass2(rows: seq<SheetRow>)
    requires SampleShaped(rows)
    ensures FirstEqual(FallbackCandidates(rows[0]), "NA") == Some(NA)
    ensures FirstEqual(FallbackCandidates(rows[1]), "NA") == Some(NA)
    ensures Pass2(rows, "NA") == Some(Hit(0, NA))
  {
    NaClean();
  }

  /**
   * On the sample, "na.png" fails pass 1 and its fallback token "NA" finds
   * both rows, through their defaulted code.
   */
  lemma SampleNaImage(rows: seq<SheetRow>)
    requires SampleShaped(rows)
    ensures Pass1(rows, ImageKey("na.png")).None?
    ensures FallbackToken("na.png") == "NA"
    ensures FirstEqual(FallbackCandidates(rows[0]), "NA") == Some(NA)
    ensures FirstEqual(FallbackCandidates(rows[1]), "NA") == Some(NA)
    ensures Pass2(rows, "NA") == Some(Hit(0, NA))
  {
    NaImageKeys();
    SampleNaPass1(rows);
    SampleNaPass2(rows);
  }

  /** For the key "AB12", the first sample row has no candidate and the second accepts its cell. */
  lemma SampleRowsAb12(rows: seq<SheetRow>)
    requires SampleShaped(rows)
    ensures FirstAccepted(Candidates(rows[0]), "AB12") == None
    ensures FirstAccepted(Candidates(rows[1]), "AB12") == Some("AB12")
  {
    NaClean();
    RedClean();
    Ab12Clean();
    assert !Pass1Accepts(NA, "AB12");
    assert !Pass1Accepts("RED", "AB12");
    assert Pass1Accepts("AB12", "AB12");
    var c0 := Candidates(rows[0]);
    var c1 := Candidates(rows[1]);
    FirstAcceptedSpec(c0, "AB12");
    assert FirstAccepted(c1[2..], "AB12") == Some("AB12");
    assert c1[1..][1..] == c1[2..];
    assert FirstAccepted(c1[1..], "AB12") == Some("AB12");
  }

  /** On the sample, "AB12.png" is matched in pass 1 by the second row's cell. */
  lemma SampleAb12Image(rows: seq<SheetRow>)
    requires SampleShaped(rows)
    ensures Pass1(rows, ImageKey("AB12.png")) == Some(Hit(1, "AB12"))
  {
    Ab12ImageKey();
    SampleRowsAb12(rows);
    assert Pass1From(rows, "AB12", 1) == Some(Hit(1, "AB12"));
  }
}
