/**
 * The `/upload` and `/status/{job_id}` endpoints (app/api/endpoints/processing.py):
 * upload validation, the matcher call, the in-memory job store and the
 * background `run_and_track` that routes to dual or batch generation and
 * records the outcome.
 *
 * The clock (`time.time()`, which names the job and prefixes every saved
 * file), the file system and the background scheduler are parameters or
 * left out; the generation calls are oracle functions, as in module NanoBanana.
 */
module Processing {
  import opened Base
  import opened Text
  import opened Metadata
  import opened Grouping
  import opened ExcelService
  import opened NanoBanana

  // ===========================================================================
  // Upload validation
  // ===========================================================================

  const AllowedImageTypes: seq<string> := ["image/jpeg", "image/png"]

  /** An uploaded file as the endpoint sees it: its name and declared content type. */
  datatype UploadFile = UploadFile(filename: string, contentType: string)

  /** The spreadsheet check: the name must end in ".xlsx", case included. */
  predicate IsXlsx(filename: string)
  {
    EndsWith(filename, ".xlsx")
  }

  /** An exception inside the upload handler: an `HTTPException` it raised, or any other error. */
  datatype Fault = HttpFault(status: int, detail: string) | ErrorRaised(message: string)

  /** The error response the client receives. */
  datatype HttpError = HttpError(status: int, detail: string)

  /** The first image whose content type is not allowed. */
  function FirstInvalid(images: seq<UploadFile>): (r: Option<nat>)
    ensures r.Some? ==> (r.value < |images| && images[r.value].contentType !in AllowedImageTypes
      && forall j :: 0 <= j < r.value ==> images[j].contentType in AllowedImageTypes)
    ensures r.None? <==> forall j :: 0 <= j < |images| ==> images[j].contentType in AllowedImageTypes
  {
    if images == [] then None
    else
      var n := |images| - 1;
      match FirstInvalid(images[..n])
      case Some(i) => Some(i)
      case None => if images[n].contentType !in AllowedImageTypes then Some(n) else None
  }

  /** The name an image is saved under: the upload's time stamp, "_", the original name. */
  function SavedName(prefix: string, filename: string): string
  {
    prefix + "_" + filename
  }

  function SavedNames(prefix: string, images: seq<UploadFile>): (names: seq<string>)
    ensures |names| == |images|
    ensures forall i :: 0 <= i < |images| ==> names[i] == SavedName(prefix, images[i].filename)
  {
    seq(|images|, i requires 0 <= i < |images| => SavedName(prefix, images[i].filename))
  }

  /** The outcome of the image loop: the first disallowed image fails the request, else every saved name. */
  function ValidateImages(prefix: string, images: seq<UploadFile>): Result<seq<string>, Fault>
  {
    match FirstInvalid(images)
    case Some(i) => Err(HttpFault(400, "Invalid image type: " + images[i].filename))
    case None => Ok(SavedNames(prefix, images))
  }

  /** Once an image fails the check, the images after it do not change the verdict. */
  lemma {:induction false} FirstInvalidPersists(images: seq<UploadFile>, n: nat)
    requires n <= |images| && FirstInvalid(images[..n]).Some?
    ensures FirstInvalid(images) == FirstInvalid(images[..n])
    decreases |images| - n
  {
    if n == |images| {
      assert images[..n] == images;
    } else {
      var init := images[..|images| - 1];
      assert init[..n] == images[..n];
      FirstInvalidPersists(init, n);
    }
  }

  /**
   * The validation loop: each image in turn is checked and, when allowed,
   * saved under its prefixed name; the first disallowed one raises.
   */
  method SaveImages(prefix: string, images: seq<UploadFile>) returns (r: Result<seq<string>, Fault>)
    ensures r == ValidateImages(prefix, images)
  {
    var savedImages: seq<string> := [];
    var i := 0;
    while i < |images|
      invariant 0 <= i <= |images|
      invariant FirstInvalid(images[..i]).None?
      invariant savedImages == SavedNames(prefix, images[..i])
    {
      var img := images[i];
      assert images[..i + 1][..i] == images[..i] && images[..i + 1][i] == img;
      if img.contentType !in AllowedImageTypes {
        FirstInvalidPersists(images, i + 1);
        return Err(HttpFault(400, "Invalid image type: " + img.filename));
      }
      savedImages := savedImages + [SavedName(prefix, img.filename)];
      i := i + 1;
    }
    assert images[..|images|] == images;
    return Ok(savedImages);
  }

  // ===========================================================================
  // Matching uploads
  // ===========================================================================

  /**
   * The match for one upload, made on its original name, with the record
   * pointing at the file as saved.
   */
  function MatchUpload(rows: seq<SheetRow>, image: UploadFile, prefix: string): (m: Option<ProductMetadata>)
    ensures m.Some? ==> m.value.imageFilename == Some(SavedName(prefix, image.filename))
  {
    match MatchImage(rows, image.filename)
    case Some(r) => Some(r.(imageFilename := Some(SavedName(prefix, image.filename))))
    case None => None
  }

  /** The records for the uploads, in upload order. */
  function MapUploads(rows: seq<SheetRow>, images: seq<UploadFile>, prefix: string): seq<ProductMetadata>
  {
    if images == [] then []
    else
      var n := |images| - 1;
      MapUploads(rows, images[..n], prefix) + OptionToSeq(MatchUpload(rows, images[n], prefix))
  }

  /** The matcher call of the upload handler, matching on the names the client sent. */
  method MapUploadsToMetadata(rows: seq<SheetRow>, images: seq<UploadFile>, prefix: string)
      returns (mapped: seq<ProductMetadata>)
    ensures mapped == MapUploads(rows, images, prefix)
  {
    mapped := [];
    var i := 0;
    while i < |images|
      invariant 0 <= i <= |images|
      invariant mapped == MapUploads(rows, images[..i], prefix)
    {
      MapUploadsSnoc(rows, images, prefix, i);
      var m := MatchOne(rows, images[i].filename);
      if m.Some? {
        mapped := mapped + [m.value.(imageFilename := Some(SavedName(prefix, images[i].filename)))];
      }
      i := i + 1;
    }
    assert images[..|images|] == images;
  }

  lemma MapUploadsSnoc(rows: seq<SheetRow>, images: seq<UploadFile>, prefix: string, i: nat)
    requires i < |images|
    ensures MapUploads(rows, images[..i + 1], prefix)
      == MapUploads(rows, images[..i], prefix) + OptionToSeq(MatchUpload(rows, images[i], prefix))
  {
    assert images[..i + 1][..i] == images[..i];
  }

  /** Names of the uploads, as the client sent them. */
  function Filenames(images: seq<UploadFile>): (names: seq<string>)
    ensures |names| == |images|
    ensures forall i :: 0 <= i < |images| ==> names[i] == images[i].filename
  {
    seq(|images|, i requires 0 <= i < |images| => images[i].filename)
  }

  /** Every record re-pointed from its image name to that image's saved file. */
  function Resaved(records: seq<ProductMetadata>, prefix: string): (r: seq<ProductMetadata>)
    ensures |r| == |records|
    ensures forall i :: 0 <= i < |records| ==> (r[i].imageFilename.Some? <==> records[i].imageFilename.Some?)
  {
    seq(|records|, i requires 0 <= i < |records| =>
      records[i].(imageFilename := match records[i].imageFilename
        case Some(n) => Some(SavedName(prefix, n))
        case None => None))
  }

  lemma ResavedAppend(a: seq<ProductMetadata>, b: seq<ProductMetadata>, prefix: string)
    ensures Resaved(a + b, prefix) == Resaved(a, prefix) + Resaved(b, prefix)
  {
  }

  /** One upload's record is the API matcher's record for its original name, re-pointed. */
  lemma MatchUploadResaved(rows: seq<SheetRow>, image: UploadFile, prefix: string)
    ensures OptionToSeq(MatchUpload(rows, image, prefix)) == Resaved(OptionToSeq(MatchImage(rows, image.filename)), prefix)
  {
    MatchImageRecord(rows, image.filename);
  }

  /**
   * Matching the uploads gives exactly the API matcher's records for the
   * original names, each pointing at the saved file instead.
   */
  lemma {:induction false} MapUploadsSpec(rows: seq<SheetRow>, images: seq<UploadFile>, prefix: string)
    ensures MapUploads(rows, images, prefix) == Resaved(MapImages(rows, Filenames(images)), prefix)
  {
    if images != [] {
      var n := |images| - 1;
      var init := images[..n];
      MapUploadsSpec(rows, init, prefix);
      var before := MapImages(rows, Filenames(init));
      var own := OptionToSeq(MatchImage(rows, images[n].filename));
      FilenamesSnoc(rows, images);
      MatchUploadResaved(rows, images[n], prefix);
      ResavedAppend(before, own, prefix);
    }
  }

  /** Matching all names is matching the names but the last, then the last one. */
  lemma FilenamesSnoc(rows: seq<SheetRow>, images: seq<UploadFile>)
    requires images != []
    ensures MapImages(rows, Filenames(images))
      == MapImages(rows, Filenames(images[..|images| - 1])) + OptionToSeq(MatchImage(rows, images[|images| - 1].filename))
  {
    var names := Filenames(images);
    var n := |images| - 1;
    assert names[..n] == Filenames(images[..n]);
    assert names[n] == images[n].filename;
  }

  /** So every record names its file, and there is at most one record per upload. */
  lemma MapUploadsShape(rows: seq<SheetRow>, images: seq<UploadFile>, prefix: string)
    ensures AllNamed(MapUploads(rows, images, prefix))
    ensures |MapUploads(rows, images, prefix)| <= |images|
  {
    MapUploadsSpec(rows, images, prefix);
    MapImagesShape(rows, Filenames(images));
  }

  // ---------------------------------------------------------------------------
  // The matcher on the saved names, as the handler calls it
  // ---------------------------------------------------------------------------

  predicate IsDigits(s: string)
  {
    forall i :: 0 <= i < |s| ==> IsDigit(s[i])
  }

  /** A cleaned value that is empty or starts with a letter. */
  predicate LetterLed(s: string)
  {
    s == [] || IsAsciiUpper(s[0])
  }

  /** The matcher call as written: on the saved names, time stamp included. */
  function MapSavedAsWritten(rows: seq<SheetRow>, images: seq<UploadFile>, prefix: string): seq<ProductMetadata>
  {
    MapImages(rows, SavedNames(prefix, images))
  }

  lemma {:induction false} DigitsAreClean(p: string)
    requires IsDigits(p)
    ensures DeepClean(p) == p
  {
    assert Upper(p) == p;
    KeepCleanOfClean(p);
  }

  lemma {:induction false} FirstTokenOfPrefixed(p: string, rest: string)
    requires IsDigits(p)
    ensures FirstToken(p + "_" + rest) == p
  {
    if p != [] {
      assert (p + "_" + rest)[1..] == p[1..] + "_" + rest;
      FirstTokenOfPrefixed(p[1..], rest);
    }
  }

  /** The extension is never cut inside the time stamp: the base name keeps it and the "_". */
  lemma RootOfPrefixed(p: string, name: string)
    requires IsDigits(p)
    ensures p + "_" <= Root(p + "_" + name)
  {
    var x := p + "_" + name;
    assert forall i :: 0 <= i <= |p| ==> x[i] != '.' by {
      assert forall i :: 0 <= i < |p| ==> x[i] == p[i];
    }
  }

  /**
   * With the time stamp in front, the cleaned key starts with the stamp's
   * digits and the fallback token is the stamp itself.
   */
  lemma PrefixedKeys(p: string, name: string)
    requires IsDigits(p)
    ensures p <= ImageKey(p + "_" + name)
    ensures FallbackToken(p + "_" + name) == p
  {
    var x := p + "_" + name;
    RootOfPrefixed(p, name);
    var root := Root(x);
    var tail := root[|p| + 1..];
    assert root == p + "_" + tail;
    DeepCleanAppend(p + "_", tail);
    DeepCleanAppend(p, "_");
    DigitsAreClean(p);
    assert DeepClean("_") == [];
    FirstTokenOfPrefixed(p, tail);
  }

  /**
   * A time-stamped name matches nothing when every value the rows offer
   * cleans to something empty or letter-led: pass 1 needs a value that
   * is the key, or a prefix of it, or has it as a prefix, and pass 2 needs a
   * value cleaning to the stamp's digits.
   */
  lemma PrefixedImageUnmatched(rows: seq<SheetRow>, p: string, name: string)
    requires IsDigits(p) && p != []
    requires forall r, c :: 0 <= r < |rows| && 0 <= c < |Candidates(rows[r])| ==> LetterLed(DeepClean(Candidates(rows[r])[c]))
    ensures MatchImage(rows, SavedName(p, name)) == None
  {
    PrefixedKeys(p, name);
    PrefixedPass1None(rows, p, ImageKey(SavedName(p, name)));
    PrefixedPass2None(rows, p);
  }

  /** Pass 1 turns down every letter-led value for a key that starts with a digit. */
  lemma PrefixedPass1None(rows: seq<SheetRow>, p: string, key: string)
    requires IsDigits(p) && p != [] && p <= key
    requires forall r, c :: 0 <= r < |rows| && 0 <= c < |Candidates(rows[r])| ==> LetterLed(DeepClean(Candidates(rows[r])[c]))
    ensures Pass1(rows, key) == None
  {
    forall r | 0 <= r < |rows| ensures !RowAccepts(rows[r], key) {
      forall c | 0 <= c < |Candidates(rows[r])| ensures !Pass1Accepts(Candidates(rows[r])[c], key) {
        LetterLedRejected(Candidates(rows[r])[c], p, key);
      }
    }
    Pass1Spec(rows, key);
  }

  lemma LetterLedRejected(raw: string, p: string, key: string)
    requires IsDigits(p) && p != [] && p <= key
    requires LetterLed(DeepClean(raw))
    ensures !Pass1Accepts(raw, key)
  {
    var clean := DeepClean(raw);
    assert key[0] == p[0];
    if |clean| >= MinCleanLength {
      assert clean[0] != key[0];
    }
  }

  /** Pass 2 finds no letter-led value equal to a token of digits. */
  lemma PrefixedPass2None(rows: seq<SheetRow>, p: string)
    requires IsDigits(p) && p != []
    requires forall r, c :: 0 <= r < |rows| && 0 <= c < |Candidates(rows[r])| ==> LetterLed(DeepClean(Candidates(rows[r])[c]))
    ensures Pass2(rows, p) == None
  {
    forall r | 0 <= r < |rows| ensures !RowHasToken(rows[r], p) {
      var fc := FallbackCandidates(rows[r]);
      forall c | 0 <= c < |fc| ensures DeepClean(fc[c]) != p {
        var c' := if c == 0 then 0 else c + 1;
        assert fc[c] == Candidates(rows[r])[c'];
        assert LetterLed(DeepClean(fc[c]));
      }
    }
    Pass2Spec(rows, p);
  }

  lemma {:induction false} PrefixedUploadsUnmatched(rows: seq<SheetRow>, images: seq<UploadFile>, p: string)
    requires IsDigits(p) && p != []
    requires forall r, c :: 0 <= r < |rows| && 0 <= c < |Candidates(rows[r])| ==> LetterLed(DeepClean(Candidates(rows[r])[c]))
    ensures MapSavedAsWritten(rows, images, p) == []
  {
    if images != [] {
      var n := |images| - 1;
      PrefixedUploadsUnmatched(rows, images[..n], p);
      var names := SavedNames(p, images);
      assert names[..n] == SavedNames(p, images[..n]);
      PrefixedImageUnmatched(rows, p, images[n].filename);
    }
  }

  /**
   * On the sample rows, "AB12.png" uploaded under any time stamp: the
   * matcher on the saved name finds nothing, while matching on the name the
   * client sent finds the row holding "AB12".
   */
  lemma PrefixCounterexample(p: string)
    requires IsDigits(p) && p != []
    ensures MapSavedAsWritten(SampleRows(), [UploadFile("AB12.png", "image/png")], p) == []
    ensures |MapUploads(SampleRows(), [UploadFile("AB12.png", "image/png")], p)| == 1
  {
    SampleRowsShaped();
    SampleLetterLed(SampleRows());
    PrefixedUploadsUnmatched(SampleRows(), [UploadFile("AB12.png", "image/png")], p);
    SampleAb12Upload(SampleRows(), p);
  }

  /** Every value the sample offers, "N/A", "RED" and "AB12", cleans to something letter-led. */
  lemma SampleLetterLed(rows: seq<SheetRow>)
    requires SampleShaped(rows)
    ensures AllLetterLed(rows)
  {
    NaClean();
    RedClean();
    Ab12Clean();
    forall r, c | 0 <= r < |rows| && 0 <= c < |Candidates(rows[r])| ensures LetterLed(DeepClean(Candidates(rows[r])[c])) {
      assert Candidates(rows[r])[c] in [NA, "RED", "AB12"];
    }
  }

  /** Matched on the name the client sent, "AB12.png" finds the sample's second row. */
  lemma SampleAb12Upload(rows: seq<SheetRow>, p: string)
    requires SampleShaped(rows)
    ensures |MapUploads(rows, [UploadFile("AB12.png", "image/png")], p)| == 1
  {
    var images := [UploadFile("AB12.png", "image/png")];
    SampleAb12Image(rows);
    assert images[..0] == [];
    assert MatchUpload(rows, images[0], p).Some?;
  }

  // ===========================================================================
  // Error responses
  // ===========================================================================

  /** Decimal digits of a status code. */
  function DecimalText(n: nat): (s: string)
    ensures s != [] && IsDigits(s)
  {
    if n < 10 then [('0' as int + n) as char] else DecimalText(n / 10) + [('0' as int + n % 10) as char]
  }

  /** `str(e)` of a fault: Starlette renders an `HTTPException` as "<status>: <detail>". */
  function FaultText(f: Fault): string
  {
    match f
    case HttpFault(status, detail) => (if status >= 0 then DecimalText(status) else "-" + DecimalText(-status)) + ": " + detail
    case ErrorRaised(message) => message
  }

  /** The handler's outer `except Exception` as written: every fault, its own 400s included, becomes a 500. */
  function ErrorResponseAsWritten(f: Fault): (e: HttpError)
    ensures e.status == 500
    ensures f.ErrorRaised? ==> e.detail == f.message
    ensures f.HttpFault? && f.status >= 0 ==> e.detail == DecimalText(f.status) + ": " + f.detail
  {
    HttpError(500, FaultText(f))
  }

  /** The evident intent: the handler's own `HTTPException`s reach the client as raised; other errors are 500s. */
  function ErrorResponse(f: Fault): (e: HttpError)
    ensures f.HttpFault? ==> e.status == f.status && e.detail == f.detail
    ensures f.ErrorRaised? ==> e.status == 500 && e.detail == f.message
  {
    match f
    case HttpFault(status, detail) => HttpError(status, detail)
    case ErrorRaised(message) => HttpError(500, message)
  }

  /** As written, a rejected spreadsheet name reaches the client as a 500 whose detail starts with "400: ". */
  lemma RejectionBecomes500(detail: string)
    ensures ErrorResponseAsWritten(HttpFault(400, detail)) == HttpError(500, "400: " + detail)
    ensures ErrorResponse(HttpFault(400, detail)) == HttpError(400, detail)
  {
    assert DecimalText(400) == DecimalText(40) + ['0'];
    assert DecimalText(40) == DecimalText(4) + ['0'];
  }

  /** Both versions agree on errors the handler did not raise itself, and only the status of its own differs. */
  lemma ErrorResponsesAgree(f: Fault)
    ensures f.ErrorRaised? ==> ErrorResponse(f) == ErrorResponseAsWritten(f)
    ensures f.HttpFault? ==> ErrorResponseAsWritten(f).status == 500 && ErrorResponse(f).status == f.status
    ensures f.HttpFault? ==> f.detail <= ErrorResponseAsWritten(f).detail[|ErrorResponseAsWritten(f).detail| - |f.detail|..]
  {
  }

  // ===========================================================================
  // The job store
  // ===========================================================================

  datatype JobStatus = Running | Completed | JobFailed

  /** A job record: its status, the counters, the results, and the error of a failed run. */
  datatype Job = Job(status: JobStatus, totalItems: nat, completedItems: int, failedItems: int,
                     results: seq<Option<string>>, error: Option<string>)

  /** A new job: running, no item done, no results. */
  function NewJob(total: nat): Job
  {
    Job(Running, total, 0, 0, [], None)
  }

  /**
   * What a job record may look like: a running job has done nothing yet; a
   * completed one counts one completed item per result and the rest as
   * failed, both non-negative; a failed one carries its error.
   */
  predicate WellFormed(job: Job)
  {
    match job.status
    case Running => job.completedItems == 0 && job.failedItems == 0 && job.results == [] && job.error == None
    case Completed =>
      job.completedItems == |job.results| && job.completedItems + job.failedItems == job.totalItems
      && job.completedItems >= 0 && job.failedItems >= 0
    case JobFailed => job.error.Some?
  }

  /** The record after the background run: completed with the results, or failed with the error. */
  function Finished(job: Job, outcome: Result<seq<Option<string>>, string>, itemCount: nat): (done: Job)
    ensures done.totalItems == job.totalItems
  {
    match outcome
    case Ok(results) =>
      job.(status := Completed, results := results, completedItems := |results|,
           failedItems := itemCount - |results|)
    case Err(e) => job.(status := JobFailed, error := Some(e))
  }

  /**
   * Finishing a running job whose item count is the job's total keeps the
   * record well formed exactly when there are no more results than items.
   */
  lemma FinishedWellFormed(job: Job, outcome: Result<seq<Option<string>>, string>, itemCount: nat)
    requires WellFormed(job) && job.status == Running && job.totalItems == itemCount
    ensures outcome.Ok? ==> (WellFormed(Finished(job, outcome, itemCount)) <==> |outcome.value| <= itemCount)
    ensures outcome.Err? ==> WellFormed(Finished(job, outcome, itemCount)) && Finished(job, outcome, itemCount).completedItems == 0
  {
  }

  /** The in-memory `jobs` dict of the endpoint module. */
  class JobStore {
    var jobs: map<string, Job>

    ghost predicate Valid()
      reads this
    {
      forall id :: id in jobs ==> WellFormed(jobs[id])
    }

    constructor()
      ensures jobs == map[] && Valid()
    {
      jobs := map[];
    }

    /** `jobs[job_id] = {...}`: the job starts running, replacing any record under the same id. */
    method Start(jobId: string, total: nat)
      requires Valid()
      modifies this
      ensures Valid()
      ensures jobs == old(jobs)[jobId := NewJob(total)]
    {
      jobs := jobs[jobId := NewJob(total)];
    }

    /** The field-by-field update at the end of `run_and_track`. */
    method Finish(jobId: string, outcome: Result<seq<Option<string>>, string>, itemCount: nat)
      requires Valid() && jobId in jobs
      modifies this
      ensures jobs == old(jobs)[jobId := Finished(old(jobs)[jobId], outcome, itemCount)]
      ensures (old(jobs)[jobId].status == Running && old(jobs)[jobId].totalItems == itemCount
               && (outcome.Ok? ==> |outcome.value| <= itemCount)) ==> Valid()
    {
      var job := jobs[jobId];
      match outcome {
        case Ok(results) =>
          job := job.(status := Completed);
          job := job.(results := results);
          job := job.(completedItems := |results|);
          job := job.(failedItems := itemCount - |results|);
        case Err(e) =>
          job := job.(status := JobFailed);
          job := job.(error := Some(e));
      }
      jobs := jobs[jobId := job];
      if old(jobs)[jobId].status == Running && old(jobs)[jobId].totalItems == itemCount {
        FinishedWellFormed(old(jobs)[jobId], outcome, itemCount);
      }
    }

    /** `get_job_status`: the record, or 404 "Job ID not found". */
    method GetJobStatus(jobId: string) returns (r: Result<Job, HttpError>)
      ensures jobId in jobs ==> r == Ok(jobs[jobId])
      ensures jobId !in jobs ==> r == Err(HttpError(404, "Job ID not found"))
    {
      if jobId !in jobs {
        return Err(HttpError(404, "Job ID not found"));
      }
      return Ok(jobs[jobId]);
    }
  }

  // ===========================================================================
  // The upload handler
  // ===========================================================================

  /** What the handler returns when it does not raise. */
  datatype UploadReply =
    | NoMatch(jobId: string)
    | ProcessingStarted(jobId: string, itemsCount: nat, mappedProducts: seq<string>)

  function Codes(records: seq<ProductMetadata>): (codes: seq<string>)
    ensures |codes| == |records|
    ensures forall i :: 0 <= i < |records| ==> codes[i] == records[i].code
  {
    seq(|records|, i requires 0 <= i < |records| => records[i].code)
  }

  /**
   * The handler's steps before the matcher, in order: the spreadsheet name,
   * then every image's type, then reading the sheet. The parsed rows, or the
   * fault raised.
   */
  function UploadRows(prefix: string, excelName: string, images: seq<UploadFile>,
                      sheet: Result<Sheet, string>): Result<seq<SheetRow>, Fault>
    requires sheet.Ok? ==> Rectangular(sheet.value)
  {
    if !IsXlsx(excelName) then Err(HttpFault(400, "Only .xlsx files are allowed"))
    else match ValidateImages(prefix, images)
      case Err(f) => Err(f)
      case Ok(_) =>
        match sheet
        case Err(message) => Err(ErrorRaised(message))
        case Ok(s) => Ok(ParseSpec(s, ExcelColumnMapping))
  }

  /** The matcher call as written: on the saved names, time stamp included. */
  function UploadMatches(prefix: string, excelName: string, images: seq<UploadFile>,
                         sheet: Result<Sheet, string>): Result<seq<ProductMetadata>, Fault>
    requires sheet.Ok? ==> Rectangular(sheet.value)
  {
    match UploadRows(prefix, excelName, images, sheet)
    case Err(f) => Err(f)
    case Ok(rows) => Ok(MapSavedAsWritten(rows, images, prefix))
  }

  /** The matcher call as evidently intended: on the sent names, recording the saved names. */
  function UploadMatchesCorrected(prefix: string, excelName: string, images: seq<UploadFile>,
                                  sheet: Result<Sheet, string>): Result<seq<ProductMetadata>, Fault>
    requires sheet.Ok? ==> Rectangular(sheet.value)
  {
    match UploadRows(prefix, excelName, images, sheet)
    case Err(f) => Err(f)
    case Ok(rows) => Ok(MapUploads(rows, images, prefix))
  }

  /**
   * The checks in order: a non-".xlsx" name fails whatever the images; then
   * the first disallowed image fails; then an unreadable sheet; else the
   * sheet's rows. Both matcher calls give at most one record per image, each
   * naming a file.
   */
  lemma UploadChecks(prefix: string, excelName: string, images: seq<UploadFile>, sheet: Result<Sheet, string>)
    requires sheet.Ok? ==> Rectangular(sheet.value)
    ensures !IsXlsx(excelName) ==> UploadRows(prefix, excelName, images, sheet) == Err(HttpFault(400, "Only .xlsx files are allowed"))
    ensures IsXlsx(excelName) && FirstInvalid(images).Some? ==>
      UploadRows(prefix, excelName, images, sheet)
        == Err(HttpFault(400, "Invalid image type: " + images[FirstInvalid(images).value].filename))
    ensures IsXlsx(excelName) && FirstInvalid(images).None? && sheet.Err? ==>
      UploadRows(prefix, excelName, images, sheet) == Err(ErrorRaised(sheet.error))
    ensures UploadRows(prefix, excelName, images, sheet).Ok? <==>
      IsXlsx(excelName) && (forall j :: 0 <= j < |images| ==> images[j].contentType in AllowedImageTypes) && sheet.Ok?
    ensures UploadMatches(prefix, excelName, images, sheet).Ok? ==>
      |UploadMatches(prefix, excelName, images, sheet).value| <= |images|
      && AllNamed(UploadMatches(prefix, excelName, images, sheet).value)
    ensures UploadMatchesCorrected(prefix, excelName, images, sheet).Ok? ==>
      |UploadMatchesCorrected(prefix, excelName, images, sheet).value| <= |images|
      && AllNamed(UploadMatchesCorrected(prefix, excelName, images, sheet).value)
  {
    if UploadRows(prefix, excelName, images, sheet).Ok? {
      var rows := UploadRows(prefix, excelName, images, sheet).value;
      MapUploadsShape(rows, images, prefix);
      MapImagesShape(rows, SavedNames(prefix, images));
    }
  }

  /** Every value the rows offer the matcher cleans to something empty or letter-led. */
  predicate AllLetterLed(rows: seq<SheetRow>)
  {
    forall r, c :: 0 <= r < |rows| && 0 <= c < |Candidates(rows[r])| ==> LetterLed(DeepClean(Candidates(rows[r])[c]))
  }

  /**
   * The two versions fail on the same faults; where they succeed, a time
   * stamp of digits leaves the call as written with no record whenever the
   * rows' values are letter-led, so the handler answers "No images matched
   * Excel data", while the corrected call matches on the sent names.
   */
  lemma UploadUnmatchedAsWritten(prefix: string, excelName: string, images: seq<UploadFile>, sheet: Result<Sheet, string>)
    requires sheet.Ok? ==> Rectangular(sheet.value)
    requires IsDigits(prefix) && prefix != []
    requires sheet.Ok? ==> AllLetterLed(ParseSpec(sheet.value, ExcelColumnMapping))
    ensures UploadMatches(prefix, excelName, images, sheet).Err? <==> UploadMatchesCorrected(prefix, excelName, images, sheet).Err?
    ensures UploadMatches(prefix, excelName, images, sheet).Err? ==>
      UploadMatches(prefix, excelName, images, sheet).error == UploadMatchesCorrected(prefix, excelName, images, sheet).error
    ensures UploadMatches(prefix, excelName, images, sheet).Ok? ==> UploadMatches(prefix, excelName, images, sheet).value == []
  {
    if UploadRows(prefix, excelName, images, sheet).Ok? {
      PrefixedUploadsUnmatched(UploadRows(prefix, excelName, images, sheet).value, images, prefix);
    }
  }

  /**
   * The handler's checks as they run: the name, the image loop (which also
   * gives the saved names), then reading and parsing the sheet.
   */
  method CheckUpload(prefix: string, excelName: string, images: seq<UploadFile>, sheet: Result<Sheet, string>)
      returns (rows: Result<seq<SheetRow>, Fault>, savedImages: seq<string>)
    requires sheet.Ok? ==> Rectangular(sheet.value)
    ensures rows == UploadRows(prefix, excelName, images, sheet)
    ensures rows.Ok? ==> savedImages == SavedNames(prefix, images)
  {
    savedImages := [];
    if !IsXlsx(excelName) {
      return Err(HttpFault(400, "Only .xlsx files are allowed")), savedImages;
    }
    var saved := SaveImages(prefix, images);
    if saved.Err? {
      return Err(saved.error), savedImages;
    }
    savedImages := saved.value;
    if sheet.Err? {
      return Err(ErrorRaised(sheet.error)), savedImages;
    }
    var metadataList := ParseMetadata(sheet.value);
    return Ok(metadataList), savedImages;
  }

  /**
   * After the matcher: no match answers "failed" and creates no job;
   * otherwise a running job with one item per record is stored.
   */
  method StartJob(store: JobStore, jobId: string, mapped: seq<ProductMetadata>) returns (reply: UploadReply)
    requires store.Valid()
    modifies store
    ensures store.Valid()
    ensures mapped == [] ==> reply == NoMatch(jobId) && store.jobs == old(store.jobs)
    ensures mapped != [] ==>
      reply == ProcessingStarted(jobId, |mapped|, Codes(mapped)) && store.jobs == old(store.jobs)[jobId := NewJob(|mapped|)]
  {
    if mapped == [] {
      return NoMatch(jobId);
    }
    store.Start(jobId, |mapped|);
    return ProcessingStarted(jobId, |mapped|, Codes(mapped));
  }

  /**
   * `unified_upload_and_process` as written, up to scheduling the background
   * run: `jobId` and `prefix` are what the clock gave, `sheet` what reading
   * the saved spreadsheet gave. The matcher runs on the saved names, and
   * every fault, the handler's own 400s included, becomes a 500.
   */
  method Upload(store: JobStore, jobId: string, prefix: string, excelName: string, images: seq<UploadFile>,
                sheet: Result<Sheet, string>)
      returns (reply: Result<UploadReply, HttpError>, mapped: seq<ProductMetadata>)
    requires store.Valid()
    requires sheet.Ok? ==> Rectangular(sheet.value)
    modifies store
    ensures store.Valid()
    ensures match UploadMatches(prefix, excelName, images, sheet)
      case Err(f) => reply == Err(ErrorResponseAsWritten(f)) && store.jobs == old(store.jobs)
      case Ok(records) =>
        mapped == records
        && (records == [] ==> reply == Ok(NoMatch(jobId)) && store.jobs == old(store.jobs))
        && (records != [] ==>
              reply == Ok(ProcessingStarted(jobId, |records|, Codes(records)))
              && store.jobs == old(store.jobs)[jobId := NewJob(|records|)])
  {
    mapped := [];
    var rows, savedImages := CheckUpload(prefix, excelName, images, sheet);
    if rows.Err? {
      return Err(ErrorResponseAsWritten(rows.error)), mapped;
    }
    mapped := MapImagesToMetadata(rows.value, savedImages);
    var started := StartJob(store, jobId, mapped);
    return Ok(started), mapped;
  }

  /**
   * The handler as evidently intended: its own `HTTPException`s reach the
   * client as raised, and the matcher runs on the sent names, each record
   * pointing at the saved file.
   */
  method UploadCorrected(store: JobStore, jobId: string, prefix: string, excelName: string, images: seq<UploadFile>,
                         sheet: Result<Sheet, string>)
      returns (reply: Result<UploadReply, HttpError>, mapped: seq<ProductMetadata>)
    requires store.Valid()
    requires sheet.Ok? ==> Rectangular(sheet.value)
    modifies store
    ensures store.Valid()
    ensures match UploadMatchesCorrected(prefix, excelName, images, sheet)
      case Err(f) => reply == Err(ErrorResponse(f)) && store.jobs == old(store.jobs)
      case Ok(records) =>
        mapped == records
        && (records == [] ==> reply == Ok(NoMatch(jobId)) && store.jobs == old(store.jobs))
        && (records != [] ==>
              reply == Ok(ProcessingStarted(jobId, |records|, Codes(records)))
              && store.jobs == old(store.jobs)[jobId := NewJob(|records|)])
  {
    mapped := [];
    var rows, _ := CheckUpload(prefix, excelName, images, sheet);
    if rows.Err? {
      return Err(ErrorResponse(rows.error)), mapped;
    }
    mapped := MapUploadsToMetadata(rows.value, images, prefix);
    var started := StartJob(store, jobId, mapped);
    return Ok(started), mapped;
  }

  // ===========================================================================
  // run_and_track
  // ===========================================================================

  const TopKeywords: seq<string> := ["rashguard", "shirt", "top", "hoodie", "jacket", "bra", "tank"]
  const BottomKeywords: seq<string> := ["leggings", "pants", "shorts", "tights", "trousers"]

  /** `any(k in name for k in keywords)`. */
  predicate AnyKeyword(name: string, keywords: seq<string>)
  {
    exists j :: 0 <= j < |keywords| && Contains(name, keywords[j])
  }

  predicate IsTop(p: ProductMetadata) { AnyKeyword(Lower(p.name), TopKeywords) }
  predicate IsBottom(p: ProductMetadata) { AnyKeyword(Lower(p.name), BottomKeywords) }

  /**
   * The smart pairing of the two records: swapped only when the second is a
   * top, the first a bottom, and the first pairing rule does not already hold.
   */
  function PairUpperLower(p1: ProductMetadata, p2: ProductMetadata): (pair: (ProductMetadata, ProductMetadata))
    ensures pair == (p1, p2) || pair == (p2, p1)
    ensures IsTop(p1) && IsBottom(p2) ==> pair == (p1, p2)
    ensures !(IsTop(p1) && IsBottom(p2)) && IsTop(p2) && IsBottom(p1) ==> pair == (p2, p1)
    ensures !(IsTop(p1) && IsBottom(p2)) && !(IsTop(p2) && IsBottom(p1)) ==> pair == (p1, p2)
  {
    if IsTop(p1) && IsBottom(p2) then (p1, p2)
    else if IsTop(p2) && IsBottom(p1) then (p2, p1)
    else (p1, p2)
  }

  /** The upper garment is a top whenever either record is a top and the other a bottom. */
  lemma PairingPutsTopFirst(p1: ProductMetadata, p2: ProductMetadata)
    requires (IsTop(p1) && IsBottom(p2)) || (IsTop(p2) && IsBottom(p1))
    ensures IsTop(PairUpperLower(p1, p2).0) && IsBottom(PairUpperLower(p1, p2).1)
  {
  }

  /**
   * What the background run yields: dual generation for exactly two records
   * (even with one code), else `batch_process` on all of them.
   */
  function RunOutcome(mapped: seq<ProductMetadata>, tryOn: (ProductMetadata, seq<string>) -> Outcome,
                      outfit: seq<ProductMetadata> -> Outcome, dual: (ProductMetadata, ProductMetadata, nat) -> Outcome)
      : Result<seq<Option<string>>, string>
  {
    if |mapped| == 2 then Ok(DualResults([PairUpperLower(mapped[0], mapped[1])], dual))
    else BatchSpec(mapped, tryOn, outfit).results
  }

  /**
   * With every record naming its file, the run never raises and never
   * returns more results than records, so a completed job's counters are
   * non-negative.
   */
  lemma RunOutcomeBound(mapped: seq<ProductMetadata>, tryOn: (ProductMetadata, seq<string>) -> Outcome,
                        outfit: seq<ProductMetadata> -> Outcome, dual: (ProductMetadata, ProductMetadata, nat) -> Outcome)
    requires AllNamed(mapped)
    ensures RunOutcome(mapped, tryOn, outfit, dual).Ok?
    ensures |RunOutcome(mapped, tryOn, outfit, dual).value| <= |mapped|
  {
    if |mapped| == 2 {
      DualResultsSpec([PairUpperLower(mapped[0], mapped[1])], dual);
    } else if mapped == [] {
    } else if IsOutfit(mapped) {
      BatchOutfit(mapped, tryOn, outfit);
      KeysSpec(mapped, CodeOf);
    } else {
      BatchPerGroup(mapped, tryOn, outfit);
      KeysSpec(mapped, CodeOf);
    }
  }

  /** In dual mode a full success completes one item and counts the other record as failed. */
  lemma DualSuccessCounts(job: Job, mapped: seq<ProductMetadata>, tryOn: (ProductMetadata, seq<string>) -> Outcome,
                          outfit: seq<ProductMetadata> -> Outcome, dual: (ProductMetadata, ProductMetadata, nat) -> Outcome)
    requires |mapped| == 2
    requires dual(PairUpperLower(mapped[0], mapped[1]).0, PairUpperLower(mapped[0], mapped[1]).1, 0).Returned?
    ensures var done := Finished(job, RunOutcome(mapped, tryOn, outfit, dual), |mapped|);
      done.status == Completed && done.completedItems == 1 && done.failedItems == 1
  {
    DualResultsSpec([PairUpperLower(mapped[0], mapped[1])], dual);
  }

  /** A generation request of the run: one dual call on an ordered pair, or a call `batch_process` makes. */
  datatype Request = DualRequest(upper: ProductMetadata, lower: ProductMetadata) | BatchRequest(call: Call)

  function Batched(calls: seq<Call>): (rs: seq<Request>)
    ensures |rs| == |calls|
    ensures forall k :: 0 <= k < |calls| ==> rs[k] == BatchRequest(calls[k])
  {
    seq(|calls|, k requires 0 <= k < |calls| => BatchRequest(calls[k]))
  }

  /** The requests of the background run, in the order it makes them. */
  function RunRequests(mapped: seq<ProductMetadata>, tryOn: (ProductMetadata, seq<string>) -> Outcome,
                       outfit: seq<ProductMetadata> -> Outcome): seq<Request>
  {
    if |mapped| == 2 then [DualRequest(PairUpperLower(mapped[0], mapped[1]).0, PairUpperLower(mapped[0], mapped[1]).1)]
    else Batched(BatchSpec(mapped, tryOn, outfit).calls)
  }

  predicate HasDual(rs: seq<Request>)
  {
    exists k :: 0 <= k < |rs| && rs[k].DualRequest?
  }

  /**
   * Dual generation runs exactly when there are two records, whatever their
   * codes: one request on the two records, in one of the two orders.
   * Otherwise `batch_process` runs: nothing for no records, one outfit call
   * with all records for several codes of one sport, else one try-on call
   * per code in first-seen order.
   */
  lemma RunRequestsSpec(mapped: seq<ProductMetadata>, tryOn: (ProductMetadata, seq<string>) -> Outcome,
                        outfit: seq<ProductMetadata> -> Outcome)
    requires AllNamed(mapped)
    ensures HasDual(RunRequests(mapped, tryOn, outfit)) <==> |mapped| == 2
    ensures |mapped| == 2 ==>
      var r := RunRequests(mapped, tryOn, outfit);
      |r| == 1 && ((r[0].upper, r[0].lower) == (mapped[0], mapped[1]) || (r[0].upper, r[0].lower) == (mapped[1], mapped[0]))
    ensures mapped == [] ==> RunRequests(mapped, tryOn, outfit) == []
    ensures |mapped| != 2 && IsOutfit(mapped) ==> RunRequests(mapped, tryOn, outfit) == [BatchRequest(OutfitCall(mapped))]
    ensures |mapped| != 2 && mapped != [] && !IsOutfit(mapped) ==>
      var rs := RunRequests(mapped, tryOn, outfit);
      var codes := Keys(mapped, CodeOf);
      |rs| == |codes| && forall j :: 0 <= j < |codes| ==> rs[j].BatchRequest? && GroupCall(mapped, codes[j]) == Some(rs[j].call)
  {
    var rs := RunRequests(mapped, tryOn, outfit);
    if |mapped| == 2 {
      assert rs[0].DualRequest?;
    } else {
      assert !HasDual(rs);
      if mapped != [] && IsOutfit(mapped) {
        BatchOutfit(mapped, tryOn, outfit);
      } else if mapped != [] {
        BatchPerGroup(mapped, tryOn, outfit);
      }
    }
  }

  /** The routing of `run_and_track`: dual generation for exactly two records, else `batch_process`. */
  method RunJob(mapped: seq<ProductMetadata>, tryOn: (ProductMetadata, seq<string>) -> Outcome,
                outfit: seq<ProductMetadata> -> Outcome, dual: (ProductMetadata, ProductMetadata, nat) -> Outcome)
      returns (outcome: Result<seq<Option<string>>, string>, requests: seq<Request>)
    ensures outcome == RunOutcome(mapped, tryOn, outfit, dual)
    ensures requests == RunRequests(mapped, tryOn, outfit)
  {
    if |mapped| == 2 {
      var p1, p2 := mapped[0], mapped[1];
      var pair := PairUpperLower(p1, p2);
      var results := BatchDualProcess([pair], dual);
      outcome := Ok(results);
      requests := [DualRequest(pair.0, pair.1)];
    } else {
      var run := BatchProcess(mapped, tryOn, outfit);
      outcome := run.results;
      requests := Batched(run.calls);
    }
  }

  /**
   * `run_and_track` for the job the handler created: route, run, then record
   * completion with the counters, or failure with the error.
   */
  method RunAndTrack(store: JobStore, jobId: string, mapped: seq<ProductMetadata>,
                     tryOn: (ProductMetadata, seq<string>) -> Outcome, outfit: seq<ProductMetadata> -> Outcome,
                     dual: (ProductMetadata, ProductMetadata, nat) -> Outcome)
      returns (requests: seq<Request>)
    requires store.Valid() && jobId in store.jobs && store.jobs[jobId] == NewJob(|mapped|)
    requires AllNamed(mapped)
    modifies store
    ensures store.jobs == old(store.jobs)[jobId := Finished(NewJob(|mapped|), RunOutcome(mapped, tryOn, outfit, dual), |mapped|)]
    ensures store.jobs[jobId].status == Completed
    ensures store.Valid()
    ensures requests == RunRequests(mapped, tryOn, outfit)
  {
    var outcome;
    outcome, requests := RunJob(mapped, tryOn, outfit, dual);
    RunOutcomeBound(mapped, tryOn, outfit, dual);
    store.Finish(jobId, outcome, |mapped|);
  }
}
