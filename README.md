# zero-drift: the matcher, the grouping and the job record, in Dafny

zero-drift takes a product spreadsheet and a set of garment photos. It matches each photo to a
spreadsheet row by a fuzzy comparison of cleaned strings. It then groups the matched records by
product code and asks an image-generation API for one try-on picture per product, one combined
outfit picture, or one "dual" picture of an upper and a lower garment. A web endpoint wraps this
as an upload and a background job with a status record. A Streamlit UI has its own copy of the
parser, the matcher and the grouping.

This project models that core and proves what it promises:

- `Text`: the Python string operations the core relies on. These are `upper`/`lower`
  (ASCII plus Polish letters), `strip` with Python's whitespace set, `split`, `endswith`, `in`,
  `os.path.splitext` (POSIX), `re.split(r'[-_ ]+', s)[0]` and `os.path.join`.
- `Metadata`: the `ProductMetadata` record. It adds `pose` and `environment`, both defaulting to
  "N/A".
- `Grouping`: the group-by-code dictionary. Its keys come in first-seen order and its lists in
  item order. Both `batch_process` and the UI use it.
- `ExcelService`: `parse_metadata` over a header row and rows of cell strings; `deep_clean`; and
  the two-pass matcher `map_images_to_metadata`.
- `Gui`: the UI's seven-field parser, its matcher (as written and corrected), its grouping
  block and its `safe_name` filter.
- `NanoBanana`: prompt pose and environment selection, the image-part extraction, the three
  retry loops, `batch_process` and `batch_dual_process`.
  - Every HTTP reply is an input.
  - Every generation call is an oracle function from its arguments to an outcome.
- `Processing`: upload validation, the matcher call and the in-memory job store (a class whose
  map field the endpoint updates). It also covers `run_and_track`, with its dual-mode routing and
  top/bottom pairing, and the status lookup. The upload handler is modelled twice: as written
  (`Processing.Upload`) and as evidently intended (`Processing.UploadCorrected`); the two differ
  as the second and third findings below describe.
- `Config`: `Settings.assemble_extensions`.

Loops in the source are loops here. Each such method is proved equal to a specification
function, and the properties are lemmas about those functions. One consequence proved along the
way is `ExcelService.Pass2OnlyFindsNA`: pass 2 of the matcher runs only after pass 1 failed, and
its token is always a prefix of pass 1's key. So pass 2 can only succeed through a value that
pass 1 skipped, an "N/A", and then the token is "NA".

## Model

| member | source | states |
|---|---|---|
| ExcelService.NormalizedHeaderShape | app/services/excel_service.py:15 | a normalised header has no space and no upper-case ASCII, and neither starts nor ends with whitespace |
| ExcelService.FirstPresentSpec | app/services/excel_service.py:30-34 | the chosen synonym is the first of the list present among the columns; none is chosen exactly when none is present |
| ExcelService.FieldValueRule | app/services/excel_service.py:30-36 | each canonical field holds the cell under its first present synonym, else "N/A" |
| ExcelService.FieldsKeys | app/services/excel_service.py:30-36 | every row has exactly the mapping's canonical keys |
| ExcelService.ExcelMappingKeys | app/services/excel_service.py:17-23 | the API mapping has exactly the five keys code, name, type, gender and sport |
| ExcelService.RawValuesRule | app/services/excel_service.py:28 | one raw value per cell, in column order, each stripped then upper-cased |
| ExcelService.FindColumn | app/services/excel_service.py:31-34 | the synonym loop with its `break` returns the first present synonym |
| ExcelService.ParseCells | app/services/excel_service.py:30-36 | the field loop builds exactly the specified field map |
| ExcelService.ParseRows | app/services/excel_service.py:25-39 | the row loop yields one parsed row per sheet row, in order |
| ExcelService.ParseMetadata | app/services/excel_service.py:9-46 | the parse equals the specification, and every row has the five keys |
| ExcelService.KeepClean | app/services/excel_service.py:55 | the result has only A-Z and 0-9 and is no longer than the input |
| ExcelService.DeepCleanIdempotent | app/services/excel_service.py:54-55 | cleaning twice is cleaning once |
| ExcelService.DeepCleanAppend | app/services/excel_service.py:54-55 | cleaning distributes over concatenation |
| ExcelService.FirstAcceptedSpec | app/services/excel_service.py:71-85 | the accepted candidate is the first one that is not skipped, is at least 2 long when cleaned, and equals the key or is a prefix either way; none iff no candidate qualifies |
| ExcelService.Pass1Spec | app/services/excel_service.py:66-106 | pass 1 hits the first row with an accepted candidate, at that row's first accepted candidate; no hit iff no row has one |
| ExcelService.FirstEqualSpec | app/services/excel_service.py:115-116 | the fallback value is the first of code and cells that cleans to the token; none iff none does |
| ExcelService.Pass2Spec | app/services/excel_service.py:114-128 | pass 2 hits the first row with a value cleaning to the token, at that row's first such value; no hit iff none does |
| ExcelService.FallbackTokenIsKeyPrefix | app/services/excel_service.py:62-112 | the pass-2 token is a prefix of the pass-1 key |
| ExcelService.Pass2OnlyFindsNA | app/services/excel_service.py:72-128 | when pass 1 failed, a pass-2 hit is always an "N/A" value (in any case) and the token is "NA" |
| ExcelService.MatchImageRecord | app/services/excel_service.py:92-124 | a match carries the image's name and status "pending"; a pass-1 match never has code "N/A" |
| ExcelService.ScanPass1 | app/services/excel_service.py:66-106 | the nested row and value loops with `match_found` and the breaks compute pass 1 |
| ExcelService.ScanValues | app/services/excel_service.py:71-103 | the value loop, skipping empty, "N/A" and short candidates, stops at the first accepted candidate |
| ExcelService.ScanPass2 | app/services/excel_service.py:114-128 | the fallback loops compute pass 2 |
| ExcelService.MatchOne | app/services/excel_service.py:61-128 | one image's record is the pass-1 record, else the pass-2 record when the token is at least 2 long, else none |
| ExcelService.MapImagesToMetadata | app/services/excel_service.py:58-133 | the image loop yields records image by image, in order |
| ExcelService.MapImagesShape | app/services/excel_service.py:60-133 | at most one record per image, each naming one of the images; one per image when every image matches |
| ExcelService.SampleParsed | app/services/excel_service.py:15-39 | a sheet whose only header "color" no code or name synonym lists parses to rows with code and name "N/A" and the cells as their raw values |
| ExcelService.SampleRowsShaped | app/services/excel_service.py:15-39 | the API's parse of the sample sheet has that shape |
| ExcelService.SampleNaImage | app/services/excel_service.py:72-116 | worked example: "na.png" misses pass 1 and matches an "N/A" code in pass 2 |
| ExcelService.SampleAb12Image | app/services/excel_service.py:66-85 | worked example: "AB12.png" matches the second sample row through its "AB12" cell |
| Gui.GuiMappingKeys | gui.py:78-86 | the UI's mapping has the five API keys plus pose and environment |
| Gui.GuiSampleShaped | gui.py:76-102 | the UI's parse of the sample sheet has the same shape, under the UI's seven-field mapping |
| Gui.ParseExcel | gui.py:73-104 | the UI parse equals the shared specification, with all seven keys in every row |
| Gui.MatchImagesToMetadata | gui.py:109-172 | the UI matcher, as written, equals the scan that stops after a fallback hit and keeps every fallback row |
| Gui.MatchOneAsWritten | gui.py:113-170 | one image's entries: the pass-1 entry, else one fallback entry per row holding the token, with the image loop left iff the fallback appended something |
| Gui.FallbackScan | gui.py:153-168 | the fallback row loop keeps going after a hit: one entry per row holding the token |
| Gui.FallbackRow | gui.py:154-168 | the value loop for one row stops at that row's first value cleaning to the token |
| Gui.FallbackEntriesFromSpec | gui.py:153-168 | at most one fallback entry per row; none iff pass 2 finds nothing; the first is the pass-2 record |
| Gui.GuiScanStopped | gui.py:147-170 | once a fallback hit has broken the image loop, later images add nothing |
| Gui.ImageStepFirstEntry | gui.py:118-170 | as written, an image yields entries iff the corrected matcher matches it, and the first entry is the corrected one |
| Gui.AsWrittenAgreesWithoutFallback | gui.py:109-172 | with no fallback hit, the as-written matcher equals the corrected one |
| Gui.MatchImagesCorrected | gui.py:109-172 | the corrected loop yields one record per matched image, in order |
| Gui.GuiMapImagesShape | gui.py:111-172 | corrected: at most one record per image, carrying that image's name and bytes |
| Gui.GuiAgreesWithApi | gui.py:118-166 | with names and types present, the corrected UI matcher and the API matcher, image by image, match the same images with the same code, gender, sport and file name; they differ only where an "N/A" name or type is rewritten by the API |
| Gui.FallbackBreaksCounterexample | gui.py:147-170 | for "na.png" then "AB12.png" the as-written matcher emits "na.png" twice and never sees "AB12.png"; the corrected one emits one record each |
| Gui.GroupMatches | gui.py:304-311 | codes in first-seen order; each group's info is its first item and its images are its items' (bytes, name) in order; the product total is the number of codes |
| Gui.GroupDictAt | gui.py:304-311 | the dict has a group exactly for the codes seen; a code's group has the code's first entry as info and all its entries' (bytes, name) in entry order |
| Gui.GroupCount | gui.py:311 | `len(grouped)` equals the number of distinct codes |
| Gui.SafeName | gui.py:212 | only alphanumerics, "-", "_" and "." remain, and never more than the input |
| Gui.SafeNameKeeps | gui.py:212 | a character survives iff it is in the name and allowed; an all-allowed name is unchanged |
| Gui.SafeNameIdempotent | gui.py:212 | filtering twice is filtering once |
| Grouping.KeysSpec | app/services/nano_banana_service.py:456-462 | the codes are distinct, include every item's code and only those, and number at most the items |
| Grouping.KeysPrefix | app/services/nano_banana_service.py:456-462 | keys are only appended: those of a prefix of the items come first |
| Grouping.MembersSpec | app/services/nano_banana_service.py:456-462 | a group holds only items of its code; it is non-empty iff the code occurs; every item is in its own group |
| Grouping.FirstMember | app/services/nano_banana_service.py:497 | the first member of a group is the first item with that code |
| Grouping.GroupsPartition | app/services/nano_banana_service.py:456-462 | the group sizes add up to the number of items |
| Grouping.GroupBy | app/services/nano_banana_service.py:456-462 | the loop builds the dictionary of exactly the keys in first-seen order, each with its members |
| NanoBanana.PoseTextFor | app/services/nano_banana_service.py:322-325 | the record's pose is used iff it is not "N/A", else the sport's default |
| NanoBanana.EnvironmentTextFor | app/services/nano_banana_service.py:327-330 | the record's environment is used iff it is not "N/A", else the sport's default |
| NanoBanana.OutfitPrompt | app/services/nano_banana_service.py:322-330 | the outfit prompt takes its lines from the first product only |
| NanoBanana.DualPromptLines | app/services/nano_banana_service.py:562-563 | the dual prompt has a pose or environment line iff the upper record's value is not "N/A" |
| NanoBanana.InlineOf | app/services/nano_banana_service.py:166 | the `inline_data` key is preferred over `inlineData` |
| NanoBanana.FirstInlinePartSpec | app/services/nano_banana_service.py:164-168 | the selected part is the first with inline data; none iff no part has it |
| NanoBanana.FindInlinePart | app/services/nano_banana_service.py:164-168 | the part loop with its `break` finds that part |
| NanoBanana.ExtractImage | app/services/nano_banana_service.py:160-186 | try-on extraction gives a non-empty image from the first inline part of the first candidate, or the matching failure |
| NanoBanana.LenientExtraction | app/services/nano_banana_service.py:418-430 | the error-swallowing reading yields an image iff the strict reading does, the same one |
| NanoBanana.ExtractDualImage | app/services/nano_banana_service.py:646-664 | the candidate and part loops of the dual reading compute its specification |
| NanoBanana.DualExtractionExtends | app/services/nano_banana_service.py:646-664 | the dual reading finds whatever the try-on reading finds, and any image it finds is a candidate's first inline image |
| NanoBanana.RefineResult | app/services/nano_banana_service.py:276-307 | refinement gives the ".png"→"_refined.png" path iff the reply is a 200 with an image |
| NanoBanana.FinalPath | app/services/nano_banana_service.py:197-205 | the try-on path is the refined one or the original, the original when refinement gives nothing |
| NanoBanana.RetrySpec | app/services/nano_banana_service.py:142-211 | with three attempts: the first generated image is returned; `None` iff none and the last was a 429; the last attempt's failure is raised iff none and it failed otherwise |
| NanoBanana.OutfitRetrySpec | app/services/nano_banana_service.py:407-444 | the outfit loop raises "Failed to generate outfit image." iff no attempt produced an image, and otherwise returns the first |
| NanoBanana.GenerateTryOnImage | app/services/nano_banana_service.py:36-211 | the attempts follow the retry policy; the prompt lines come from the product; attempts stop at the first image |
| NanoBanana.GenerateOutfitImage | app/services/nano_banana_service.py:309-444 | the outfit attempts follow the outfit retry policy, with the prompt from the first product; when a record has no file name every attempt fails and the call raises "Failed to generate outfit image." |
| NanoBanana.OutfitUnnamedFails | app/services/nano_banana_service.py:383-444 | when the `TypeError` of a record without a file name ends every attempt, the outfit loop raises "Failed to generate outfit image." whatever the replies |
| NanoBanana.GenerateDualTryOn | app/services/nano_banana_service.py:530-688 | the dual attempts follow the retry policy; a missing upper image fails every attempt |
| NanoBanana.GroupPaths | app/services/nano_banana_service.py:495 | a group's paths are the images-dir joins of its file names, in member order; none if a name is missing |
| NanoBanana.CollectImagePaths | app/services/nano_banana_service.py:495 | the comprehension computes those paths |
| NanoBanana.ProcessGroups | app/services/nano_banana_service.py:493-509 | the group loop equals its specification: one call per group until a group lacks a file name, which raises `os.path.join`'s `TypeError` text |
| NanoBanana.BatchProcess | app/services/nano_banana_service.py:446-509 | `batch_process` returns, or raises, what the specification says, making exactly its calls |
| NanoBanana.BatchUnnamedRaises | app/services/nano_banana_service.py:493-495 | a lone record without a file name makes `batch_process` raise "join() argument must be str, bytes, or os.PathLike object, not 'NoneType'" before any generation call |
| NanoBanana.BatchEmpty | app/services/nano_banana_service.py:451-453 | no products: `[]` and no calls |
| NanoBanana.BatchOutfit | app/services/nano_banana_service.py:469-485 | the outfit case: one call with all products, at most one result, one shared sport |
| NanoBanana.BatchPerGroup | app/services/nano_banana_service.py:493-509 | otherwise: one try-on call per code in first-seen order, with the first record and all paths; one result per returning call, at most the number of groups |
| NanoBanana.PerGroupErrPersists | app/services/nano_banana_service.py:495 | once a group raises, later groups make no calls |
| NanoBanana.BatchDualProcess | app/services/nano_banana_service.py:693-709 | the pair loop equals its specification |
| NanoBanana.DualResultsSpec | app/services/nano_banana_service.py:697-707 | at most one result per pair; with no failures, exactly one per pair, in order |
| Processing.FirstInvalid | app/api/endpoints/processing.py:58-63 | the first image whose type is not jpeg or png; none iff all are allowed |
| Processing.SaveImages | app/api/endpoints/processing.py:55-71 | the loop raises 400 for the first invalid image, else returns every "<prefix>_<name>" in order |
| Processing.MapUploadsToMetadata | app/api/endpoints/processing.py:76-80 | corrected matcher call: matches each upload on its own name, recording the saved name |
| Processing.MapUploadsSpec | app/api/endpoints/processing.py:65-80 | the corrected call gives the API matcher's records for the original names, re-pointed to the saved files |
| Processing.MapUploadsShape | app/api/endpoints/processing.py:77-80 | every record names its file; at most one record per upload |
| Processing.PrefixedKeys | app/api/endpoints/processing.py:65-80 | with a digit time stamp in front, the key starts with the stamp and the pass-2 token is the stamp |
| Processing.PrefixedImageUnmatched | app/api/endpoints/processing.py:65-80 | as written, a stamped name matches nothing when every row value cleans to empty or letter-led |
| Processing.PrefixedUploadsUnmatched | app/api/endpoints/processing.py:65-80 | as written, the whole upload then maps to no record |
| Processing.PrefixCounterexample | app/api/endpoints/processing.py:65-87 | "AB12.png": as written the call matches nothing, while matching the sent name gives one record |
| Processing.ErrorResponseAsWritten | app/api/endpoints/processing.py:187-189 | as written, every fault becomes a 500 whose detail is `str(e)`: "<status>: <detail>" for the handler's own `HTTPException`s, the message otherwise |
| Processing.ErrorResponse | app/api/endpoints/processing.py:187-189 | corrected: the handler's own `HTTPException`s keep their status and detail; other errors become 500 with their message |
| Processing.RejectionBecomes500 | app/api/endpoints/processing.py:41-189 | as written, the ".xlsx" rejection reaches the client as 500 "400: ..."; corrected, as 400 |
| Processing.ErrorResponsesAgree | app/api/endpoints/processing.py:187-189 | both error mappings agree on other errors; as written, every own fault becomes 500 with its detail as a suffix |
| Processing.UploadChecks | app/api/endpoints/processing.py:41-80 | a non-".xlsx" name fails first, then the first invalid image, then an unreadable sheet; the rows come back iff all checks pass; either matcher call gives at most one named record per image |
| Processing.UploadUnmatchedAsWritten | app/api/endpoints/processing.py:65-87 | both matcher calls fail on the same faults; under a digit time stamp and letter-led row values the call as written matches nothing, so the handler answers "No images matched Excel data" |
| Processing.CheckUpload | app/api/endpoints/processing.py:41-76 | the checks as they run give the parsed rows or the first fault, and the saved names on success |
| Processing.StartJob | app/api/endpoints/processing.py:82-98 | no record: "failed" with no job; otherwise a running job with one item per record, and nothing else changes |
| Processing.Upload | app/api/endpoints/processing.py:35-189 | the handler as written: the matcher runs on the saved "<prefix>_<name>" names; every fault, its own 400s included, becomes a 500 with no job; no match answers "failed"; otherwise a running job with one item per record is stored and the codes returned |
| Processing.UploadCorrected | app/api/endpoints/processing.py:35-189 | the handler as evidently intended: the matcher runs on the sent names with the saved names recorded, and the handler's own 400s reach the client as raised; otherwise as the handler |
| Processing.JobStore.constructor | app/api/endpoints/processing.py:16 | the store starts empty, and so well formed |
| Processing.JobStore.Start | app/api/endpoints/processing.py:92-98 | the job is (re)set to running with the total and nothing else changes |
| Processing.JobStore.Finish | app/api/endpoints/processing.py:164-173 | only that job changes: completed with the counters, or failed with the error; finishing a running job of the right total with no more results than items keeps the store well formed |
| Processing.JobStore.GetJobStatus | app/api/endpoints/processing.py:192-196 | the stored record, or 404 "Job ID not found" |
| Processing.FinishedWellFormed | app/api/endpoints/processing.py:164-173 | finishing keeps the record well formed (counters non-negative, summing to the total) iff results do not outnumber items |
| Processing.PairUpperLower | app/api/endpoints/processing.py:124-137 | swapped only when the second is a top, the first a bottom, and not vice versa; otherwise in order |
| Processing.PairingPutsTopFirst | app/api/endpoints/processing.py:130-137 | when one is a top and the other a bottom, the upper garment is the top |
| Processing.RunOutcomeBound | app/api/endpoints/processing.py:108-159 | with every record named, the run never raises and returns at most one result per record |
| Processing.DualSuccessCounts | app/api/endpoints/processing.py:108-169 | a successful dual run completes 1 item and counts the other as failed |
| Processing.RunRequestsSpec | app/api/endpoints/processing.py:108-159 | dual generation runs iff there are exactly two records, as one request on the two in one of the two orders; otherwise `batch_process`'s calls: none, one outfit call with all records, or one try-on call per code in first-seen order |
| Processing.RunJob | app/api/endpoints/processing.py:108-159 | the routing computes the run's outcome and makes exactly the run's requests |
| Processing.RunAndTrack | app/api/endpoints/processing.py:103-173 | the job ends completed with the run's results and counters, the store stays well formed, and the run makes exactly the routed requests |
| Config.AssembleExtensionsSpec | app/core/config.py:27-30 | a string gives one more entry than it has commas, each the stripped piece, with no comma and no outer whitespace; a list is unchanged |
| Config.AssembleJoined | app/core/config.py:29 | comma-joining clean entries and validating the string gives them back |
| Config.DefaultRoundTrip | app/core/config.py:23-30 | the default list, in either form, validates to `["png","jpg","jpeg","xlsx","xls"]` |
| Text.SplitOnSpec | app/core/config.py:29 | `split(",")` gives one piece more than commas, none containing one, and joining undoes it |

## Left out

- File I/O is left out: reading the spreadsheet (`pd.read_excel`), writing uploads and outputs, `os.path.exists` and directory creation.
  - The sheet arrives as header and cell strings.
  - The existence of the dual images arrives as booleans.
  - pandas' "nan" cells are ordinary strings.
- The clock is not modelled. `time.time()` names the job and prefixes the files; both are parameters.
- HTTP, base64, JSON payloads, the prompt texts and the generation settings are left out.
  - Replies and generation outcomes are inputs or oracle functions.
  - Each retry loop reads exactly three replies.
- Logging, `asyncio.sleep`, `BackgroundTasks` scheduling and concurrent access to `jobs` are not modelled. That is timing and concurrency.
- `target_variations` is fixed at 1 in the source, so its loops are single calls.
- The Streamlit UI outside the parser, matcher, grouping and `safe_name` is not modelled, nor the `generate_image` wrapper.
- `app/utils/image_processor.py`, middleware, logging setup, `main.py` and the commented-out upload module are not part of this model.
- Case mapping covers ASCII and the Polish letters of the synonym lists, not all of Unicode. `isalnum` is ASCII plus those letters too.
- The `ValueError("Single-product generation not supported.")` branch is not modelled. `hasattr(nano_service, "batch_process")` is always true, so the branch is dead.
- HTTP-exception formatting is modelled only as `str(e)` being "<status>: <detail>"; no other message formats are modelled.
- `metadata.py` has no `pose`/`environment` field. The model's record adds both, defaulting to "N/A" from every matcher, and models the generators as they are evidently meant to run. As written the source behaves differently:
  - Pydantic's default drops the extra `pose=`/`environment=` arguments that gui.py passes (gui.py:198-199, 383-384).
  - So `product.pose` raises `AttributeError` at app/services/nano_banana_service.py:44 and 322 before any request, and inside every dual attempt at line 562.
  - `batch_process` catches it (lines 483 and 506), and so does `batch_dual_process` (line 705, after the three attempts re-raise).
  - So every run as written returns no result, and the job completes with no completed item.
- Processing.RunAndTrack: requires every record to carry a file name, which every record built by either matcher call does (Processing.UploadChecks). A missing name would make `batch_process` raise. That case is within `NanoBanana.BatchSpec`, but the method does not state the resulting failed record.
- NanoBanana.GenerateDualTryOn: requires both records to carry a file name. The `TypeError` a missing name would raise on every attempt is not modelled.
- NanoBanana.GenerateOutfitImage: requires a non-empty product list. The `IndexError` of `products[0]` on an empty list is not modelled; `batch_process` never makes that call. A record without a file name is modelled: its `TypeError` fails every attempt.
- ExcelService.IndexOf, ExcelService.Fields, ExcelService.FieldValueRule and Gui.ParseExcel: when two headers normalise to the same synonym (say "Code" and "code "), pandas' `row[var]` (app/services/excel_service.py:33, gui.py:96) is a Series and the field holds its multi-line `str()`. The model instead takes the cell of the first such column.
- NanoBanana.BatchProcess and NanoBanana.ProcessGroups: the text of the `TypeError` raised for a record without a file name is CPython 3.12's `posixpath.join` message. Other Python versions and Windows paths may word it differently.
- Gui.GuiAgreesWithApi: requires product name and type in every row. Without them the two matchers' default names differ ("Product" versus "Fashion Item").

## Findings

| source | as written | input that shows it | evidently intended | confidence | as-written member | corrected member |
|---|---|---|---|---|---|---|
| gui.py:167-170 | after a fallback match, `break` leaves only the value loop: every later row holding the token is added too. `if matched: break` then leaves the image loop, so later images are never matched | a sheet with the one header "color" and the cells "RED" and "AB12", so both rows get code "N/A"; images "na.png", "AB12.png": two records for "na.png", none for "AB12.png" | stop at the first matching row and go on to the next image | not executed | Gui.MatchImagesToMetadata, Gui.FallbackBreaksCounterexample | Gui.MatchImagesCorrected |
| app/api/endpoints/processing.py:65-80 | the matcher is given "<timestamp>_<name>". The cleaned key then starts with the time stamp's digits and the pass-2 token is the stamp, so no letter-led code or cell can match | the same sheet and the upload "AB12.png", which the row holding "AB12" matches by its sent name: no record, so the request answers "No images matched Excel data" | match on the uploaded name and record the saved name | not executed | Processing.Upload, Processing.PrefixedUploadsUnmatched, Processing.UploadUnmatchedAsWritten, Processing.PrefixCounterexample | Processing.UploadCorrected, Processing.MapUploadsToMetadata |
| app/api/endpoints/processing.py:41-42,59-63,187-189 | the handler's own `HTTPException(400)` is caught by `except Exception` and re-raised as 500 | excel file "data.csv": 500 with detail "400: Only .xlsx files are allowed" | the client gets the 400 | not executed | Processing.Upload, Processing.ErrorResponseAsWritten, Processing.RejectionBecomes500 | Processing.UploadCorrected, Processing.ErrorResponse |
