/**
 * The Streamlit front end's own copy of the pipeline (gui.py): `parse_excel`
 * over seven canonical fields, its `match_images_to_metadata` (pass 1 as in
 * the API, a fallback whose loop exits differ), the group-by-code dictionary
 * of the processing block, and the `safe_name` file-name filter.
 *
 * The fallback is modelled twice: `GuiScan` / `MatchImagesToMetadata` as the
 * loops are written, and `GuiMapImages` / `MatchImagesCorrected` with one
 * match per image, which is what the matcher is evidently meant to do.
 */
module Gui {
  import opened Base
  import opened Text
  import opened Metadata
  import opened Grouping
  import opened ExcelService

  // ===========================================================================
  // parse_excel
  // ===========================================================================

  const GuiColumnMapping: ColumnMapping := [
    ("product_code", ["product_code", "code", "p_code", "sku", "nazwa_bazowa", "nr_artykułu", "id"]),
    ("product_name", ["product_name", "name", "title", "nazwa_handlowa", "opis"]),
    ("product_type", ["product_type", "type", "category", "type_of_product", "rodzaj"]),
    ("gender", ["płeć", "gender", "sex"]),
    ("sport", ["sport_dominujący", "sport", "discipline"]),
    ("pose", ["pose", "action", "position", "poza"]),
    ("environment", ["environment", "background", "location", "scene", "otoczenie"])
  ]

  lemma GuiMappingKeys()
    ensures MappingKeys(GuiColumnMapping)
      == {"product_code", "product_name", "product_type", "gender", "sport", "pose", "environment"}
    ensures DistinctKeys(GuiColumnMapping)
  {
    var m := GuiColumnMapping;
    assert m[0].0 == "product_code" && m[1].0 == "product_name" && m[2].0 == "product_type";
    assert m[3].0 == "gender" && m[4].0 == "sport" && m[5].0 == "pose" && m[6].0 == "environment";
  }

  /**
   * `parse_excel` on an already-read sheet: the same normalisation and
   * first-synonym rule as the API, over seven fields including pose and
   * environment, each absent one "N/A".
   */
  method ParseExcel(sheet: Sheet) returns (results: seq<SheetRow>)
    requires Rectangular(sheet)
    ensures results == ParseSpec(sheet, GuiColumnMapping)
    ensures forall r :: 0 <= r < |results| ==> (results[r].fields.Keys
      == {"product_code", "product_name", "product_type", "gender", "sport", "pose", "environment"})
  {
    results := ParseRows(sheet, GuiColumnMapping);
    forall r | 0 <= r < |results|
      ensures results[r].fields.Keys
        == {"product_code", "product_name", "product_type", "gender", "sport", "pose", "environment"}
    {
      FieldsKeys(GuiColumnMapping, NormalizeHeaders(sheet.header), sheet.rows[r]);
      GuiMappingKeys();
    }
  }

  // ===========================================================================
  // match_images_to_metadata
  // ===========================================================================

  /** An uploaded image: its name and its bytes. */
  type ImageFile = (string, seq<bv8>)

  /** One matched entry as the UI builds it: seven fields, the image's name and bytes. */
  datatype GuiItem = GuiItem(
    code: string,
    name: string,
    productType: string,
    gender: string,
    sport: string,
    pose: string,
    environment: string,
    imageName: string,
    imageBytes: seq<bv8>)

  /** An entry for `row` under `code`: name and type copied verbatim, no "N/A" rewriting. */
  function GuiRecord(row: SheetRow, code: string, img: ImageFile): GuiItem
  {
    GuiItem(code,
            Get(row.fields, "product_name", "Product"), Get(row.fields, "product_type", "Fashion"),
            Get(row.fields, "gender", NA), Get(row.fields, "sport", NA),
            Get(row.fields, "pose", NA), Get(row.fields, "environment", NA),
            img.0, img.1)
  }

  /** The pass-1 entry: the row's code, or the cleaned candidate when the code is "N/A". */
  function GuiPass1Record(row: SheetRow, cleanVal: string, img: ImageFile): GuiItem
  {
    var pCode := Get(row.fields, "product_code", "");
    GuiRecord(row, if pCode != NA then pCode else cleanVal, img)
  }

  /** The fallback entry of one row: for its first code or cell whose cleaned form equals the token. */
  function RowEntry(row: SheetRow, prefix: string, img: ImageFile): (own: seq<GuiItem>)
    ensures |own| <= 1
  {
    match FirstEqual(FallbackCandidates(row), prefix)
    case Some(raw) => [GuiRecord(row, raw, img)]
    case None => []
  }

  /** The fallback entries for the rows from `from` on: one per row holding a value equal to the token. */
  function FallbackEntriesFrom(rows: seq<SheetRow>, prefix: string, img: ImageFile, from: nat): seq<GuiItem>
    requires from <= |rows|
    decreases |rows| - from
  {
    if from == |rows| then [] else RowEntry(rows[from], prefix, img) + FallbackEntriesFrom(rows, prefix, img, from + 1)
  }

  /** The fallback entries of an image as gui.py's loop appends them. */
  function FallbackEntries(rows: seq<SheetRow>, prefix: string, img: ImageFile): seq<GuiItem>
  {
    FallbackEntriesFrom(rows, prefix, img, 0)
  }

  /** The entries the image loop appends for one image, and whether its `break` then ends the loop. */
  function ImageStep(rows: seq<SheetRow>, img: ImageFile): (seq<GuiItem>, bool)
  {
    match Pass1(rows, ImageKey(img.0))
    case Some(h) => ([GuiPass1Record(rows[h.row], DeepClean(h.raw), img)], false)
    case None =>
      var prefix := FallbackToken(img.0);
      if |prefix| >= MinCleanLength then
        var fb := FallbackEntries(rows, prefix, img);
        (fb, fb != [])
      else ([], false)
  }

  /** The state of the image loop: what was appended so far, and whether it was broken out of. */
  datatype Scan = Scan(mapped: seq<GuiItem>, stopped: bool)

  /** gui.py's matcher as written, over the first images. */
  function GuiScan(rows: seq<SheetRow>, images: seq<ImageFile>): Scan
  {
    if images == [] then Scan([], false)
    else
      var prev := GuiScan(rows, images[..|images| - 1]);
      if prev.stopped then prev
      else
        var step := ImageStep(rows, images[|images| - 1]);
        Scan(prev.mapped + step.0, step.1)
  }

  /** The value loop of the fallback: the first value whose cleaned form equals the token. */
  method FindEqual(vals: seq<string>, prefix: string) returns (found: Option<string>)
    ensures found == FirstEqual(vals, prefix)
  {
    var k := 0;
    while k < |vals|
      invariant 0 <= k <= |vals|
      invariant FirstEqual(vals, prefix) == FirstEqual(vals[k..], prefix)
    {
      assert vals[k..][1..] == vals[k + 1..];
      if DeepClean(vals[k]) == prefix {
        return Some(vals[k]);
      }
      k := k + 1;
    }
    return None;
  }

  /** One row of the fallback: the value loop, whose `break` ends only this row. */
  method FallbackRow(row: SheetRow, prefix: string, img: ImageFile) returns (own: seq<GuiItem>)
    ensures own == RowEntry(row, prefix, img)
  {
    var vals := [Get(row.fields, "product_code", "")] + row.rawValues;
    assert vals == FallbackCandidates(row);
    var found := FindEqual(vals, prefix);
    own := [];
    if found.Some? {
      own := own + [GuiRecord(row, found.value, img)];
    }
  }

  /**
   * The fallback's row loop as written: for every row, the first code or cell
   * whose cleaned form equals the token appends an entry, and the `break`
   * leaves only that row's value loop.
   */
  method FallbackScan(rows: seq<SheetRow>, prefix: string, img: ImageFile) returns (entries: seq<GuiItem>)
    ensures entries == FallbackEntries(rows, prefix, img)
  {
    entries := [];
    var r := 0;
    while r < |rows|
      invariant 0 <= r <= |rows|
      invariant FallbackEntries(rows, prefix, img) == entries + FallbackEntriesFrom(rows, prefix, img, r)
    {
      var own := FallbackRow(rows[r], prefix, img);
      entries := entries + own;
      r := r + 1;
    }
  }

  /**
   * gui.py's `match_images_to_metadata` as written: pass 1 appends at most one
   * entry per image; a fallback match appends one entry per matching row and
   * then leaves the image loop for good.
   */
  method MatchImagesToMetadata(rows: seq<SheetRow>, images: seq<ImageFile>) returns (mapped: seq<GuiItem>)
    ensures mapped == GuiScan(rows, images).mapped
  {
    mapped := [];
    var i := 0;
    while i < |images|
      invariant 0 <= i <= |images|
      invariant GuiScan(rows, images[..i]) == Scan(mapped, false)
    {
      GuiScanSnoc(rows, images, i);
      var entries, stop := MatchOneAsWritten(rows, images[i]);
      mapped := mapped + entries;
      if stop {
        GuiScanStopped(rows, images, i + 1);
        return;
      }
      i := i + 1;
    }
    assert images[..|images|] == images;
  }

  /**
   * The body of the image loop for one image: the entries it appends, and
   * whether the fallback's `break` then leaves the image loop.
   */
  method MatchOneAsWritten(rows: seq<SheetRow>, img: ImageFile) returns (entries: seq<GuiItem>, stop: bool)
    ensures (entries, stop) == ImageStep(rows, img)
  {
    var imgBase := Root(img.0);
    var cleanImg := DeepClean(imgBase);
    var hit := ScanPass1(rows, cleanImg);
    if hit.Some? {
      return [GuiPass1Record(rows[hit.value.row], DeepClean(hit.value.raw), img)], false;
    }
    var prefix := DeepClean(FirstToken(imgBase));
    if |prefix| >= MinCleanLength {
      entries := FallbackScan(rows, prefix, img);
      return entries, entries != [];
    }
    return [], false;
  }

  lemma GuiScanSnoc(rows: seq<SheetRow>, images: seq<ImageFile>, i: nat)
    requires i < |images| && !GuiScan(rows, images[..i]).stopped
    ensures GuiScan(rows, images[..i + 1])
      == Scan(GuiScan(rows, images[..i]).mapped + ImageStep(rows, images[i]).0, ImageStep(rows, images[i]).1)
  {
    assert images[..i + 1][..i] == images[..i];
  }

  /** Once the image loop is left, later images add nothing. */
  lemma {:induction false} GuiScanStopped(rows: seq<SheetRow>, images: seq<ImageFile>, n: nat)
    requires n <= |images| && GuiScan(rows, images[..n]).stopped
    ensures GuiScan(rows, images) == GuiScan(rows, images[..n])
    decreases |images| - n
  {
    if n == |images| {
      assert images[..n] == images;
    } else {
      var init := images[..|images| - 1];
      assert init[..n] == images[..n];
      GuiScanStopped(rows, init, n);
    }
  }

  // ---------------------------------------------------------------------------
  // The matcher as intended: one entry per image
  // ---------------------------------------------------------------------------

  /** The corrected per-image result: the pass-1 entry, else the first fallback match, else nothing. */
  function GuiMatchImage(rows: seq<SheetRow>, img: ImageFile): Option<GuiItem>
  {
    match Pass1(rows, ImageKey(img.0))
    case Some(h) => Some(GuiPass1Record(rows[h.row], DeepClean(h.raw), img))
    case None =>
      var prefix := FallbackToken(img.0);
      if |prefix| >= MinCleanLength then
        match Pass2(rows, prefix)
        case Some(h) => Some(GuiRecord(rows[h.row], h.raw, img))
        case None => None
      else None
  }

  function GuiMapImages(rows: seq<SheetRow>, images: seq<ImageFile>): seq<GuiItem>
  {
    if images == [] then []
    else GuiMapImages(rows, images[..|images| - 1]) + OptionToSeq(GuiMatchImage(rows, images[|images| - 1]))
  }

  /**
   * The matcher with the fallback loops exited as the two passes of the API
   * exit them: the first matching row ends the row loop, and the image loop
   * goes on to the next image.
   */
  method MatchImagesCorrected(rows: seq<SheetRow>, images: seq<ImageFile>) returns (mapped: seq<GuiItem>)
    ensures mapped == GuiMapImages(rows, images)
  {
    mapped := [];
    var i := 0;
    while i < |images|
      invariant 0 <= i <= |images|
      invariant mapped == GuiMapImages(rows, images[..i])
    {
      GuiMapImagesSnoc(rows, images, i);
      var m := GuiMatchOne(rows, images[i]);
      mapped := mapped + OptionToSeq(m);
      i := i + 1;
    }
    assert images[..|images|] == images;
  }

  lemma GuiMapImagesSnoc(rows: seq<SheetRow>, images: seq<ImageFile>, i: nat)
    requires i < |images|
    ensures GuiMapImages(rows, images[..i + 1]) == GuiMapImages(rows, images[..i]) + OptionToSeq(GuiMatchImage(rows, images[i]))
  {
    assert images[..i + 1][..i] == images[..i];
  }

  /** One image of the corrected loop: pass 1, else the first fallback row. */
  method GuiMatchOne(rows: seq<SheetRow>, img: ImageFile) returns (m: Option<GuiItem>)
    ensures m == GuiMatchImage(rows, img)
  {
    var imgBase := Root(img.0);
    var hit := ScanPass1(rows, DeepClean(imgBase));
    if hit.Some? {
      return Some(GuiPass1Record(rows[hit.value.row], DeepClean(hit.value.raw), img));
    }
    var prefix := DeepClean(FirstToken(imgBase));
    if |prefix| >= MinCleanLength {
      var fallback := ScanPass2(rows, prefix);
      if fallback.Some? {
        return Some(GuiRecord(rows[fallback.value.row], fallback.value.raw, img));
      }
    }
    return None;
  }

  // ---------------------------------------------------------------------------
  // Matching lemmas
  // ---------------------------------------------------------------------------

  /**
   * The fallback entries, seen from the row loop: there are none exactly when
   * pass 2 finds nothing, and otherwise the first is pass 2's match; there is
   * at most one per row.
   */
  lemma {:induction false} FallbackEntriesFromSpec(rows: seq<SheetRow>, prefix: string, img: ImageFile, from: nat)
    requires from <= |rows|
    ensures |FallbackEntriesFrom(rows, prefix, img, from)| <= |rows| - from
    ensures FallbackEntriesFrom(rows, prefix, img, from) == [] <==> Pass2From(rows, prefix, from).None?
    ensures Pass2From(rows, prefix, from).Some? ==>
      FallbackEntriesFrom(rows, prefix, img, from)[0]
        == GuiRecord(rows[Pass2From(rows, prefix, from).value.row], Pass2From(rows, prefix, from).value.raw, img)
    decreases |rows| - from
  {
    if from < |rows| {
      FallbackEntriesFromSpec(rows, prefix, img, from + 1);
    }
  }

  /**
   * The corrected matcher builds the same record as the first entry gui.py's
   * loop appends for the image, and appends something exactly when it does.
   */
  lemma ImageStepFirstEntry(rows: seq<SheetRow>, img: ImageFile)
    ensures ImageStep(rows, img).0 != [] <==> GuiMatchImage(rows, img).Some?
    ensures GuiMatchImage(rows, img).Some? ==> ImageStep(rows, img).0[0] == GuiMatchImage(rows, img).value
    ensures ImageStep(rows, img).1 ==> Pass1(rows, ImageKey(img.0)).None?
    ensures Pass1(rows, ImageKey(img.0)).Some? ==> ImageStep(rows, img).0 == OptionToSeq(GuiMatchImage(rows, img))
  {
    if Pass1(rows, ImageKey(img.0)).None? {
      var prefix := FallbackToken(img.0);
      if |prefix| >= MinCleanLength {
        FallbackEntriesFromSpec(rows, prefix, img, 0);
      }
    }
  }

  /** An image the fallback matches: pass 1 found nothing and pass 2 found a row. */
  predicate FallbackHit(rows: seq<SheetRow>, img: ImageFile)
  {
    Pass1(rows, ImageKey(img.0)).None? && |FallbackToken(img.0)| >= MinCleanLength
    && Pass2(rows, FallbackToken(img.0)).Some?
  }

  /**
   * When the fallback matches no image, gui.py's loops and the corrected
   * matcher append the same entries.
   */
  lemma {:induction false} AsWrittenAgreesWithoutFallback(rows: seq<SheetRow>, images: seq<ImageFile>)
    requires forall i :: 0 <= i < |images| ==> !FallbackHit(rows, images[i])
    ensures GuiScan(rows, images) == Scan(GuiMapImages(rows, images), false)
  {
    if images != [] {
      var init := images[..|images| - 1];
      var last := images[|images| - 1];
      assert forall i :: 0 <= i < |init| ==> init[i] == images[i];
      AsWrittenAgreesWithoutFallback(rows, init);
      ImageStepFirstEntry(rows, last);
      FallbackEntriesFromSpec(rows, FallbackToken(last.0), last, 0);
    }
  }

  /** A corrected entry carries the image it was made for. */
  lemma GuiMatchImageCarries(rows: seq<SheetRow>, img: ImageFile)
    ensures GuiMatchImage(rows, img).Some? ==>
      GuiMatchImage(rows, img).value.imageName == img.0 && GuiMatchImage(rows, img).value.imageBytes == img.1
  {
  }

  /** The entry carries the name and bytes of one of the images. */
  predicate CarriedBy(e: GuiItem, images: seq<ImageFile>)
  {
    exists i :: 0 <= i < |images| && e.imageName == images[i].0 && e.imageBytes == images[i].1
  }

  /** Every entry carries the name and bytes of one of the images. */
  predicate Carried(entries: seq<GuiItem>, images: seq<ImageFile>)
  {
    forall k :: 0 <= k < |entries| ==> CarriedBy(entries[k], images)
  }

  lemma CarriedSnoc(before: seq<GuiItem>, own: seq<GuiItem>, init: seq<ImageFile>, last: ImageFile)
    requires Carried(before, init)
    requires forall k :: 0 <= k < |own| ==> own[k].imageName == last.0 && own[k].imageBytes == last.1
    ensures Carried(before + own, init + [last])
  {
    var all := before + own;
    var images := init + [last];
    forall k | 0 <= k < |all| ensures CarriedBy(all[k], images) {
      if k < |before| {
        assert CarriedBy(before[k], init);
        var i :| 0 <= i < |init| && before[k].imageName == init[i].0 && before[k].imageBytes == init[i].1;
        assert all[k] == before[k] && images[i] == init[i];
      } else {
        var j := |init|;
        assert all[k] == own[k - |before|] && images[j] == last;
      }
    }
  }

  /** The corrected matcher emits at most one entry per image, each carrying an image of the list. */
  lemma {:induction false} GuiMapImagesShape(rows: seq<SheetRow>, images: seq<ImageFile>)
    ensures |GuiMapImages(rows, images)| <= |images|
    ensures Carried(GuiMapImages(rows, images), images)
  {
    if images != [] {
      var n := |images| - 1;
      var init := images[..n];
      assert images == init + [images[n]];
      GuiMapImagesShape(rows, init);
      GuiMatchImageCarries(rows, images[n]);
      CarriedSnoc(GuiMapImages(rows, init), OptionToSeq(GuiMatchImage(rows, images[n])), init, images[n]);
    }
  }

  /**
   * The UI's matcher and the API's accept the same images through the same
   * rows: the codes, genders and sports agree, and so do names and types
   * except where the API rewrites an "N/A".
   */
  lemma GuiAgreesWithApi(rows: seq<SheetRow>, img: ImageFile)
    requires forall r :: 0 <= r < |rows| ==> "product_name" in rows[r].fields && "product_type" in rows[r].fields
    ensures GuiMatchImage(rows, img).Some? <==> MatchImage(rows, img.0).Some?
    ensures GuiMatchImage(rows, img).Some? ==>
      var g := GuiMatchImage(rows, img).value;
      var m := MatchImage(rows, img.0).value;
      g.code == m.code && g.gender == m.gender && g.sport == m.sport
      && Some(g.imageName) == m.imageFilename
      && (m.name == g.name || (g.name == NA && m.name == "Product"))
      && (m.productType == g.productType || (g.productType == NA && m.productType == "Fashion"))
  {
  }

  /** `parse_excel` on the sample spreadsheet: both rows' seven fields are "N/A". */
  function GuiSampleRows(): seq<SheetRow>
  {
    assert Rectangular(SampleSheet);
    ParseSpec(SampleSheet, GuiColumnMapping)
  }

  lemma GuiSampleShaped()
    ensures SampleShaped(GuiSampleRows())
  {
    GuiMappingKeys();
    SampleParsed(GuiColumnMapping);
  }

  /** On the sample rows the fallback for "na.png" appends an entry for each of the two rows. */
  lemma SampleNaEntries()
    ensures |FallbackEntries(GuiSampleRows(), "NA", ("na.png", []))| == 2
  {
    var rows := GuiSampleRows();
    var img: ImageFile := ("na.png", []);
    GuiSampleShaped();
    SampleNaImage(rows);
    assert |RowEntry(rows[0], "NA", img)| == 1;
    assert |RowEntry(rows[1], "NA", img)| == 1;
    assert FallbackEntriesFrom(rows, "NA", img, 2) == [];
    assert |FallbackEntriesFrom(rows, "NA", img, 1)| == 1;
  }

  /**
   * The fallback's exits as written: on the sample rows the image "na.png"
   * produces two entries, and the image after it is never looked at,
   * although pass 1 would have matched it; the corrected matcher gives one
   * entry for each image.
   */
  lemma FallbackBreaksCounterexample()
    ensures var images: seq<ImageFile> := [("na.png", []), ("AB12.png", [])];
      var asWritten := GuiScan(GuiSampleRows(), images).mapped;
      var corrected := GuiMapImages(GuiSampleRows(), images);
      |asWritten| == 2 && asWritten[0].imageName == "na.png" && asWritten[1].imageName == "na.png"
      && |corrected| == 2 && corrected[0].imageName == "na.png" && corrected[1].imageName == "AB12.png"
      && corrected[1].code == "AB12"
  {
    SampleAsWritten();
    SampleCorrected();
  }

  /** gui.py's loops on the sample: two entries for "na.png", then the loop is left. */
  lemma SampleAsWritten()
    ensures var asWritten := GuiScan(GuiSampleRows(), [("na.png", []), ("AB12.png", [])]).mapped;
      |asWritten| == 2 && asWritten[0].imageName == "na.png" && asWritten[1].imageName == "na.png"
  {
    var rows := GuiSampleRows();
    var na: ImageFile := ("na.png", []);
    var ab: ImageFile := ("AB12.png", []);
    var images: seq<ImageFile> := [na, ab];
    var fb := FallbackEntries(rows, "NA", na);
    SampleNaScan();
    GuiScanStopped(rows, images, 1);
    SampleNaEntries();
    FallbackEntriesImage(rows, "NA", na, 0);
    assert fb[0] in fb && fb[1] in fb;
  }

  /** The first sample image alone: its fallback entries, and the loop marked as broken out of. */
  lemma SampleNaScan()
    ensures GuiScan(GuiSampleRows(), [("na.png", []), ("AB12.png", [])][..1])
      == Scan(FallbackEntries(GuiSampleRows(), "NA", ("na.png", [])), true)
  {
    var na: ImageFile := ("na.png", []);
    assert [na, ("AB12.png", [])][..1] == [na];
    GuiScanOne(GuiSampleRows(), na);
    SampleNaStep();
  }

  lemma GuiScanOne(rows: seq<SheetRow>, img: ImageFile)
    ensures GuiScan(rows, [img]) == Scan(ImageStep(rows, img).0, ImageStep(rows, img).1)
  {
    assert [img][..0] == [];
  }

  lemma SampleNaStep()
    ensures ImageStep(GuiSampleRows(), ("na.png", [])) == (FallbackEntries(GuiSampleRows(), "NA", ("na.png", [])), true)
  {
    GuiSampleShaped();
    SampleNaImage(GuiSampleRows());
    SampleNaEntries();
  }

  /** The corrected matcher on the sample: one entry for each image. */
  lemma SampleCorrected()
    ensures var corrected := GuiMapImages(GuiSampleRows(), [("na.png", []), ("AB12.png", [])]);
      |corrected| == 2 && corrected[0].imageName == "na.png" && corrected[1].imageName == "AB12.png"
      && corrected[1].code == "AB12"
  {
    GuiMapImagesPair(GuiSampleRows(), ("na.png", []), ("AB12.png", []));
    SampleNaRecord();
    SampleAb12Record();
  }

  lemma GuiMapImagesPair(rows: seq<SheetRow>, x: ImageFile, y: ImageFile)
    ensures GuiMapImages(rows, [x, y]) == OptionToSeq(GuiMatchImage(rows, x)) + OptionToSeq(GuiMatchImage(rows, y))
  {
    assert [x, y][..1] == [x];
    GuiMapImagesOne(rows, x);
  }

  lemma GuiMapImagesOne(rows: seq<SheetRow>, x: ImageFile)
    ensures GuiMapImages(rows, [x]) == OptionToSeq(GuiMatchImage(rows, x))
  {
    assert [x][..0] == [];
  }

  lemma SampleNaRecord()
    ensures GuiMatchImage(GuiSampleRows(), ("na.png", [])) == Some(GuiRecord(GuiSampleRows()[0], NA, ("na.png", [])))
  {
    GuiSampleShaped();
    SampleNaImage(GuiSampleRows());
  }

  lemma SampleAb12Record()
    ensures GuiMatchImage(GuiSampleRows(), ("AB12.png", []))
      == Some(GuiPass1Record(GuiSampleRows()[1], "AB12", ("AB12.png", [])))
    ensures GuiPass1Record(GuiSampleRows()[1], "AB12", ("AB12.png", [])).code == "AB12"
  {
    GuiSampleShaped();
    SampleAb12Image(GuiSampleRows());
    Ab12Clean();
  }

  /** Every fallback entry carries the image it was made for. */
  lemma {:induction false} FallbackEntriesImage(rows: seq<SheetRow>, prefix: string, img: ImageFile, from: nat)
    requires from <= |rows|
    ensures forall e :: e in FallbackEntriesFrom(rows, prefix, img, from) ==> e.imageName == img.0 && e.imageBytes == img.1
    decreases |rows| - from
  {
    if from < |rows| {
      FallbackEntriesImage(rows, prefix, img, from + 1);
    }
  }

  // ===========================================================================
  // Grouping the matched entries (processing block of gui.py)
  // ===========================================================================

  function GuiCode(item: GuiItem): string
  {
    item.code
  }

  /** A group of the UI: its first entry and every entry's (bytes, name), in entry order. */
  datatype GuiGroup = GuiGroup(info: GuiItem, images: seq<(seq<bv8>, string)>)

  function ImagesOf(items: seq<GuiItem>): (images: seq<(seq<bv8>, string)>)
    ensures |images| == |items|
    ensures forall j :: 0 <= j < |items| ==> images[j] == (items[j].imageBytes, items[j].imageName)
  {
    if items == [] then []
    else ImagesOf(items[..|items| - 1]) + [(items[|items| - 1].imageBytes, items[|items| - 1].imageName)]
  }

  lemma ImagesOfSnoc(items: seq<GuiItem>, x: GuiItem)
    ensures ImagesOf(items + [x]) == ImagesOf(items) + [(x.imageBytes, x.imageName)]
  {
    assert (items + [x])[..|items|] == items;
  }

  /** The group of `k` after `items`: its first entry, and every entry's (bytes, name) in order. */
  ghost predicate GroupOk(items: seq<GuiItem>, g: GuiGroup, k: string)
  {
    Members(items, GuiCode, k) != [] && g.info == Members(items, GuiCode, k)[0]
    && g.images == ImagesOf(Members(items, GuiCode, k))
  }

  /**
   * The dict after the given entries: a new code gets a group with the entry
   * as `info` and no images, then the entry's image is appended to its group.
   */
  function GroupDict(items: seq<GuiItem>): map<string, GuiGroup>
  {
    if items == [] then map[]
    else
      var d := GroupDict(items[..|items| - 1]);
      var item := items[|items| - 1];
      var g := if item.code in d then d[item.code] else GuiGroup(item, []);
      d[item.code := g.(images := g.images + [(item.imageBytes, item.imageName)])]
  }

  /** Another code's group is unaffected by an entry. */
  lemma GroupOther(items: seq<GuiItem>, item: GuiItem, g: GuiGroup, k: string)
    requires k != item.code && GroupOk(items, g, k)
    ensures GroupOk(items + [item], g, k)
  {
    MembersSnoc(items, GuiCode, item, k);
  }

  /** A new group, created with the entry as `info`, gains the entry's image. */
  lemma GroupNew(items: seq<GuiItem>, item: GuiItem)
    requires Members(items, GuiCode, item.code) == []
    ensures GroupOk(items + [item], GuiGroup(item, [(item.imageBytes, item.imageName)]), item.code)
  {
    MembersSnoc(items, GuiCode, item, item.code);
    var ms := Members(items + [item], GuiCode, item.code);
    assert ms == [item];
    assert ms[..0] == [];
    assert ImagesOf(ms) == ImagesOf(ms[..0]) + [(item.imageBytes, item.imageName)];
  }

  /** An existing group keeps its `info` and gains the entry's image. */
  lemma GroupExisting(items: seq<GuiItem>, item: GuiItem, g: GuiGroup)
    requires GroupOk(items, g, item.code)
    ensures GroupOk(items + [item], GuiGroup(g.info, g.images + [(item.imageBytes, item.imageName)]), item.code)
  {
    var ms := Members(items, GuiCode, item.code);
    MembersSnoc(items, GuiCode, item, item.code);
    ImagesOfSnoc(ms, item);
  }

  /**
   * The dict holds a group exactly for the codes seen, and the group of a
   * code holds that code's first entry as `info` and all its entries'
   * images, in entry order.
   */
  lemma {:induction false} GroupDictAt(items: seq<GuiItem>, k: string)
    ensures k in GroupDict(items) <==> k in Keys(items, GuiCode)
    ensures k in GroupDict(items) ==> GroupOk(items, GroupDict(items)[k], k)
  {
    if items != [] {
      var init := items[..|items| - 1];
      var item := items[|items| - 1];
      assert items == init + [item];
      var d := GroupDict(init);
      GroupDictAt(init, k);
      KeysSnoc(init, GuiCode, item);
      if k == item.code {
        if k in d {
          GroupExisting(init, item, d[k]);
        } else {
          MembersNonEmpty(init, GuiCode, k);
          GroupNew(init, item);
        }
      } else if k in d {
        GroupOther(init, item, d[k], k);
      }
    }
  }

  /**
   * The group-by-code loop: each code's group is created on its first entry,
   * which becomes its `info`, and every entry's image is appended in entry
   * order; `total_products` is the number of distinct codes.
   */
  method GroupMatches(mapped: seq<GuiItem>)
      returns (order: seq<string>, grouped: map<string, GuiGroup>, totalProducts: nat)
    ensures order == Keys(mapped, GuiCode) && grouped == GroupDict(mapped)
    ensures forall k :: k in grouped <==> k in order
    ensures forall k :: k in grouped ==>
      Members(mapped, GuiCode, k) != [] && grouped[k].info == Members(mapped, GuiCode, k)[0]
      && grouped[k].images == ImagesOf(Members(mapped, GuiCode, k))
    ensures totalProducts == |order|
  {
    order := [];
    grouped := map[];
    var i := 0;
    while i < |mapped|
      invariant 0 <= i <= |mapped|
      invariant order == Keys(mapped[..i], GuiCode)
      invariant grouped == GroupDict(mapped[..i])
    {
      var item := mapped[i];
      var code := item.code;
      assert mapped[..i + 1] == mapped[..i] + [item];
      assert mapped[..i + 1][..i] == mapped[..i];
      GroupDictAt(mapped[..i], code);
      if code !in grouped {
        grouped := grouped[code := GuiGroup(item, [])];
        order := order + [code];
      }
      grouped := grouped[code := grouped[code].(images := grouped[code].images + [(item.imageBytes, item.imageName)])];
      i := i + 1;
    }
    assert mapped[..|mapped|] == mapped;
    forall k ensures (k in grouped <==> k in order) && (k in grouped ==> GroupOk(mapped, grouped[k], k)) {
      GroupDictAt(mapped, k);
    }
    GroupCount(mapped);
    totalProducts := |grouped|;
  }

  /** `len(grouped)` is the number of distinct codes. */
  lemma GroupCount(items: seq<GuiItem>)
    ensures |GroupDict(items)| == |Keys(items, GuiCode)|
  {
    KeysSpec(items, GuiCode);
    DistinctCount(Keys(items, GuiCode));
    forall k ensures k in GroupDict(items) <==> k in Keys(items, GuiCode) {
      GroupDictAt(items, k);
    }
    assert GroupDict(items).Keys == set k | k in Keys(items, GuiCode);
  }

  // ===========================================================================
  // safe_name
  // ===========================================================================

  /** The characters `safe_name` keeps: letters and digits, `-`, `_` and `.`. */
  predicate SafeChar(c: char)
  {
    IsAlnum(c) || c == '-' || c == '_' || c == '.'
  }

  /** `"".join(c for c in img_name if c.isalnum() or c in ('-', '_', '.'))`. */
  function SafeName(name: string): (r: string)
    ensures |r| <= |name|
    ensures forall i :: 0 <= i < |r| ==> SafeChar(r[i])
  {
    if name == [] then []
    else SafeName(name[..|name| - 1]) + (if SafeChar(name[|name| - 1]) then [name[|name| - 1]] else [])
  }

  /**
   * `safe_name` is a filter: it works piece by piece, keeps exactly the safe
   * characters of each piece, and leaves an already safe name unchanged.
   */
  lemma {:induction false} SafeNameAppend(a: string, b: string)
    ensures SafeName(a + b) == SafeName(a) + SafeName(b)
  {
    if b == [] {
      assert a + b == a;
    } else {
      var init := b[..|b| - 1];
      assert (a + b)[..|a + b| - 1] == a + init;
      SafeNameAppend(a, init);
    }
  }

  lemma SafeNameKeeps(name: string)
    ensures forall c :: c in SafeName(name) <==> c in name && SafeChar(c)
    ensures (forall i :: 0 <= i < |name| ==> SafeChar(name[i])) ==> SafeName(name) == name
  {
    SafeNameMembers(name);
    if forall i :: 0 <= i < |name| ==> SafeChar(name[i]) {
      SafeNameOfSafe(name);
    }
  }

  lemma {:induction false} SafeNameMembers(name: string)
    ensures forall c :: c in SafeName(name) <==> c in name && SafeChar(c)
  {
    if name != [] {
      var init := name[..|name| - 1];
      var last := name[|name| - 1];
      SafeNameMembers(init);
      assert name == init + [last];
      assert SafeName(name) == SafeName(init) + (if SafeChar(last) then [last] else []);
      forall c ensures c in SafeName(name) <==> c in name && SafeChar(c) {
        assert c in name <==> c in init || c == last;
      }
    }
  }

  lemma {:induction false} SafeNameOfSafe(name: string)
    requires forall i :: 0 <= i < |name| ==> SafeChar(name[i])
    ensures SafeName(name) == name
  {
    if name != [] {
      var init := name[..|name| - 1];
      assert forall i :: 0 <= i < |init| ==> init[i] == name[i];
      SafeNameOfSafe(init);
      assert SafeChar(name[|name| - 1]);
      assert name == init + [name[|name| - 1]];
    }
  }

  lemma SafeNameIdempotent(name: string)
    ensures SafeName(SafeName(name)) == SafeName(name)
  {
    SafeNameKeeps(SafeName(name));
  }
}
