/**
 * The control logic of `NanoBananaService` (app/services/nano_banana_service.py):
 * how the pose and environment lines of a prompt are chosen, how the image is
 * taken out of a reply, how the three generators retry, and how
 * `batch_process` / `batch_dual_process` turn products into generation calls.
 *
 * Each HTTP request is replaced by the reply the server gives to it: the
 * retry loops read one reply per attempt from a sequence, and the batch
 * routines read the outcome of each generation call from an oracle function.
 */
module NanoBanana {
  import opened Base
  import opened Text
  import opened Metadata
  import opened Grouping

  /** `max_retries` of all three generators. */
  const MaxRetries: nat := 3

  /** `settings.IMAGES_DIR`, where uploaded reference images are stored. */
  const ImagesDir: string := "uploads/images"

  // ===========================================================================
  // Prompt pose and environment
  // ===========================================================================

  /** The `[POSE]` line: the record's pose, or a mid-action pose for its sport. */
  datatype PoseText = GivenPose(pose: string) | AthletePose(sport: string)

  /** The `[ENVIRONMENT]` line: the record's environment, or one fitting its sport. */
  datatype EnvironmentText = GivenEnvironment(environment: string) | SportEnvironment(sport: string)

  function PoseTextFor(pose: string, sport: string): (t: PoseText)
    ensures t.GivenPose? <==> pose != NA
    ensures t.GivenPose? ==> t.pose == pose
    ensures t.AthletePose? ==> t.sport == sport
  {
    if pose != NA then GivenPose(pose) else AthletePose(sport)
  }

  function EnvironmentTextFor(environment: string, sport: string): (t: EnvironmentText)
    ensures t.GivenEnvironment? <==> environment != NA
    ensures t.GivenEnvironment? ==> t.environment == environment
    ensures t.SportEnvironment? ==> t.sport == sport
  {
    if environment != NA then GivenEnvironment(environment) else SportEnvironment(sport)
  }

  /** `generate_tryon_image`: both lines come from the one product. */
  function TryOnPrompt(product: ProductMetadata): (PoseText, EnvironmentText)
  {
    (PoseTextFor(product.pose, product.sport), EnvironmentTextFor(product.environment, product.sport))
  }

  /** `generate_outfit_image`: both lines, and the sport, come from the first product only. */
  function OutfitPrompt(products: seq<ProductMetadata>): (lines: (PoseText, EnvironmentText))
    requires |products| >= 1
    ensures lines == TryOnPrompt(products[0])
    ensures forall p :: p in products && p.pose == products[0].pose && p.sport == products[0].sport ==>
      lines.0 == TryOnPrompt(p).0
  {
    var sport := products[0].sport;
    (PoseTextFor(products[0].pose, sport), EnvironmentTextFor(products[0].environment, sport))
  }

  /**
   * `generate_dual_tryon`: the pose and environment lines of the upper product
   * are left out when they are "N/A"; there is no sport-based default.
   */
  function DualPromptLines(upper: ProductMetadata): (lines: (Option<string>, Option<string>))
    ensures lines.0.Some? <==> upper.pose != NA
    ensures lines.1.Some? <==> upper.environment != NA
    ensures lines.0.Some? ==> lines.0.value == upper.pose
    ensures lines.1.Some? ==> lines.1.value == upper.environment
  {
    (if upper.pose != NA then Some(upper.pose) else None,
     if upper.environment != NA then Some(upper.environment) else None)
  }

  // ===========================================================================
  // Replies and image extraction
  // ===========================================================================

  /** An `inline_data` / `inlineData` object; `data` is `None` when the key is missing. */
  datatype InlineData = InlineData(data: Option<string>)

  /** One response part: which of the keys `inline_data`, `inlineData` and `text` it has. */
  datatype Part = Part(inlineData: Option<InlineData>, inlineDataCamel: Option<InlineData>, text: Option<string>)

  /** A candidate's `content.parts` (a missing `content` is an empty list). */
  datatype Candidate = Candidate(parts: seq<Part>)

  /**
   * What one `generateContent` request comes back with: a status code and the
   * `candidates` list (`None` when the key is missing), or an exception before
   * any status is known (a timeout, an unreadable reference image).
   */
  datatype Reply = Reply(status: int, candidates: Option<seq<Candidate>>) | Unreachable(reason: string)

  /** Why an attempt raised. */
  datatype Failure =
    | ApiError(status: int)        // a status other than 200 and 429
    | NoImageData                  // "No image data in response."
    | MalformedResponse            // a `KeyError` / `IndexError` while reading the reply
    | TransportError(reason: string)
    | MissingImage(path: string)   // `encode_image`'s `FileNotFoundError`
    | UnnamedImage                 // `os.path.join`'s `TypeError` on a record without a file name
    | OutfitFailed                 // "Failed to generate outfit image."

  /** How one attempt of a retry loop ends. */
  datatype Attempt = RateLimited | Failed(failure: Failure) | Generated(data: string)

  /** How a generator ends: it returns a path (possibly `None`) or raises. */
  datatype Outcome = Returned(path: Option<string>) | Raised(failure: Failure)

  predicate HasInline(p: Part)
  {
    p.inlineData.Some? || p.inlineDataCamel.Some?
  }

  /** `part.get("inline_data", part.get("inlineData"))`: the snake-case key wins. */
  function InlineOf(p: Part): (d: InlineData)
    requires HasInline(p)
    ensures p.inlineData.Some? ==> d == p.inlineData.value
    ensures p.inlineData.None? ==> d == p.inlineDataCamel.value
  {
    if p.inlineData.Some? then p.inlineData.value else p.inlineDataCamel.value
  }

  /** Where the part loop stops: the first part carrying inline data. */
  function FirstInlinePart(parts: seq<Part>): (r: Option<nat>)
    ensures r.Some? ==> r.value < |parts| && HasInline(parts[r.value])
  {
    if parts == [] then None
    else if HasInline(parts[0]) then Some(0)
    else match FirstInlinePart(parts[1..])
      case None => None
      case Some(i) => Some(i + 1)
  }

  /** The first inline part, stated by position. */
  lemma {:induction false} FirstInlinePartSpec(parts: seq<Part>)
    ensures FirstInlinePart(parts).None? <==> forall i :: 0 <= i < |parts| ==> !HasInline(parts[i])
    ensures FirstInlinePart(parts).Some? ==>
      FirstInlinePart(parts).value < |parts| && HasInline(parts[FirstInlinePart(parts).value])
      && forall i :: 0 <= i < FirstInlinePart(parts).value ==> !HasInline(parts[i])
  {
    if parts != [] && !HasInline(parts[0]) {
      FirstInlinePartSpec(parts[1..]);
      assert forall i :: 0 < i < |parts| ==> parts[i] == parts[1..][i - 1];
    }
  }

  /** The `for part in parts` loop with its `break` at the first inline part. */
  method FindInlinePart(parts: seq<Part>) returns (found: Option<nat>)
    ensures found == FirstInlinePart(parts)
  {
    var i := 0;
    while i < |parts|
      invariant 0 <= i <= |parts|
      invariant forall j :: 0 <= j < i ==> !HasInline(parts[j])
    {
      if HasInline(parts[i]) {
        FirstInlinePartSpec(parts);
        return Some(i);
      }
      i := i + 1;
    }
    FirstInlinePartSpec(parts);
    return None;
  }

  /**
   * The image in a reply as `generate_tryon_image` reads it: the first part
   * with inline data of the first candidate; a missing candidate or a missing
   * `data` key raises, and so does an empty or absent image.
   */
  function TryOnExtraction(candidates: Option<seq<Candidate>>): Result<string, Failure>
  {
    if candidates.None? || candidates.value == [] then Err(MalformedResponse)
    else
      var parts := candidates.value[0].parts;
      match FirstInlinePart(parts)
      case None => Err(NoImageData)
      case Some(i) =>
        match InlineOf(parts[i]).data
        case None => Err(MalformedResponse)
        case Some(d) => if d == [] then Err(NoImageData) else Ok(d)
  }

  /**
   * The same reading with every exception swallowed, as `generate_outfit_image`
   * and `_refine_logo` do it: an image, or nothing.
   */
  function LenientExtraction(candidates: Option<seq<Candidate>>): (r: Option<string>)
    ensures r.Some? <==> TryOnExtraction(candidates).Ok?
    ensures r.Some? ==> r.value == TryOnExtraction(candidates).value && r.value != []
  {
    match TryOnExtraction(candidates)
    case Ok(d) => Some(d)
    case Err(_) => None
  }

  /** The extraction block of `generate_tryon_image`. */
  method ExtractImage(candidates: Option<seq<Candidate>>) returns (r: Result<string, Failure>)
    ensures r == TryOnExtraction(candidates)
    ensures r.Ok? ==> r.value != []
    ensures r.Ok? ==> exists i :: (0 <= i < |candidates.value[0].parts| && HasInline(candidates.value[0].parts[i])
      && InlineOf(candidates.value[0].parts[i]).data == Some(r.value))
  {
    if candidates.None? || candidates.value == [] {
      return Err(MalformedResponse);
    }
    var parts := candidates.value[0].parts;
    var found := FindInlinePart(parts);
    FirstInlinePartSpec(parts);
    if found.None? {
      return Err(NoImageData);
    }
    var data := InlineOf(parts[found.value]).data;
    if data.None? {
      return Err(MalformedResponse);
    }
    if data.value == [] {
      return Err(NoImageData);
    }
    return Ok(data.value);
  }

  /**
   * The image as `generate_dual_tryon` reads it, from candidate `from` on: in
   * each candidate the first inline part; an empty image moves on to the next
   * candidate, a missing `data` key raises.
   */
  function DualExtractionFrom(candidates: seq<Candidate>, from: nat): Result<string, Failure>
    requires from <= |candidates|
    decreases |candidates| - from
  {
    if from == |candidates| then Err(NoImageData)
    else
      var parts := candidates[from].parts;
      match FirstInlinePart(parts)
      case None => DualExtractionFrom(candidates, from + 1)
      case Some(i) =>
        match InlineOf(parts[i]).data
        case None => Err(MalformedResponse)
        case Some(d) => if d == [] then DualExtractionFrom(candidates, from + 1) else Ok(d)
  }

  /** `result_data.get("candidates", [])`, then the candidate loop. */
  function DualExtraction(candidates: Option<seq<Candidate>>): Result<string, Failure>
  {
    DualExtractionFrom(if candidates.None? then [] else candidates.value, 0)
  }

  /** The nested candidate/part loops of `generate_dual_tryon`. */
  method ExtractDualImage(candidates: Option<seq<Candidate>>) returns (r: Result<string, Failure>)
    ensures r == DualExtraction(candidates)
  {
    var cands := if candidates.None? then [] else candidates.value;
    var c := 0;
    while c < |cands|
      invariant 0 <= c <= |cands|
      invariant DualExtraction(candidates) == DualExtractionFrom(cands, c)
    {
      var parts := cands[c].parts;
      var found := FindInlinePart(parts);
      FirstInlinePartSpec(parts);
      if found.Some? {
        var data := InlineOf(parts[found.value]).data;
        if data.None? {
          return Err(MalformedResponse);
        }
        if data.value != [] {
          return Ok(data.value);
        }
      }
      c := c + 1;
    }
    return Err(NoImageData);
  }

  /**
   * The dual reading finds every image the try-on reading finds (it starts
   * with the same first candidate), and whatever it finds is the non-empty
   * image of the first inline part of some candidate.
   */
  lemma DualExtractionExtends(candidates: Option<seq<Candidate>>)
    ensures TryOnExtraction(candidates).Ok? ==> DualExtraction(candidates) == TryOnExtraction(candidates)
    ensures DualExtraction(candidates).Ok? ==>
      var cands := candidates.value;
      (exists c :: 0 <= c < |cands| && FirstInlinePart(cands[c].parts).Some?
        && InlineOf(cands[c].parts[FirstInlinePart(cands[c].parts).value]).data == Some(DualExtraction(candidates).value))
      && DualExtraction(candidates).value != []
  {
    if DualExtraction(candidates).Ok? {
      DualFound(if candidates.None? then [] else candidates.value, 0);
    }
  }

  lemma {:induction false} DualFound(candidates: seq<Candidate>, from: nat)
    requires from <= |candidates|
    requires DualExtractionFrom(candidates, from).Ok?
    ensures exists c :: (from <= c < |candidates| && FirstInlinePart(candidates[c].parts).Some?
      && InlineOf(candidates[c].parts[FirstInlinePart(candidates[c].parts).value]).data
         == Some(DualExtractionFrom(candidates, from).value))
    ensures DualExtractionFrom(candidates, from).value != []
    decreases |candidates| - from
  {
    var parts := candidates[from].parts;
    var f := FirstInlinePart(parts);
    if f.Some? && InlineOf(parts[f.value]).data.Some?
       && InlineOf(parts[f.value]).data.value != [] {
    } else {
      DualFound(candidates, from + 1);
    }
  }

  // ===========================================================================
  // Logo refinement
  // ===========================================================================

  /** `generated_image_path.replace(".png", "_refined.png")`. */
  function RefinedPath(generated: string): string
  {
    ReplaceAll(generated, ".png", "_refined.png")
  }

  /**
   * What `_refine_logo` hands back for a reply: `None` on a status other than
   * 200 or when no image can be read; an exception (an unreachable server, an
   * unreadable file) is caught by the caller and reads the same.
   */
  function RefineResult(reply: Reply, generated: string): (r: Option<string>)
    ensures r.Some? ==> r.value == RefinedPath(generated)
    ensures r.Some? <==> reply.Reply? && reply.status == 200 && LenientExtraction(reply.candidates).Some?
  {
    match reply
    case Unreachable(_) => None
    case Reply(status, candidates) =>
      if status != 200 then None
      else if LenientExtraction(candidates).None? then None
      else Some(RefinedPath(generated))
  }

  /** The path `generate_tryon_image` returns: the refined image if there is one, else the original. */
  function FinalPath(generated: string, refine: Reply): (path: string)
    ensures path == generated || path == RefinedPath(generated)
    ensures RefineResult(refine, generated).None? ==> path == generated
  {
    match RefineResult(refine, generated)
    case Some(refined) => if refined != [] then refined else generated
    case None => generated
  }

  // ===========================================================================
  // Retry loops
  // ===========================================================================

  /** How a try-on attempt ends for a reply. */
  function TryOnAttempt(reply: Reply): Attempt
  {
    match reply
    case Unreachable(reason) => Failed(TransportError(reason))
    case Reply(status, candidates) =>
      if status == 429 then RateLimited
      else if status != 200 then Failed(ApiError(status))
      else match TryOnExtraction(candidates)
        case Ok(d) => Generated(d)
        case Err(f) => Failed(f)
  }

  /**
   * How an outfit attempt ends: a record without a file name fails before
   * any request is sent; reading errors are swallowed and only "no image"
   * remains.
   */
  function OutfitAttempt(named: bool, reply: Reply): Attempt
  {
    if !named then Failed(UnnamedImage)
    else match reply
    case Unreachable(reason) => Failed(TransportError(reason))
    case Reply(status, candidates) =>
      if status == 429 then RateLimited
      else if status != 200 then Failed(ApiError(status))
      else match LenientExtraction(candidates)
        case Some(d) => Generated(d)
        case None => Failed(NoImageData)
  }

  /** How a dual attempt ends: both images must exist before any request is sent. */
  function DualAttempt(upperPath: string, upperExists: bool, lowerPath: string, lowerExists: bool,
                       reply: Reply): Attempt
  {
    if !upperExists then Failed(MissingImage(upperPath))
    else if !lowerExists then Failed(MissingImage(lowerPath))
    else match reply
      case Unreachable(reason) => Failed(TransportError(reason))
      case Reply(status, candidates) =>
        if status == 429 then RateLimited
        else if status != 200 then Failed(ApiError(status))
        else match DualExtraction(candidates)
          case Ok(d) => Generated(d)
          case Err(f) => Failed(f)
  }

  /**
   * The retry policy of `generate_tryon_image` and `generate_dual_tryon` from
   * attempt `k` on: a 429 moves on, any other failure moves on unless it is
   * the last attempt, which re-raises it; the first image is returned (as
   * `paths[k]`); a loop left after a 429 on the last attempt returns `None`.
   */
  function RetryFrom(attempts: seq<Attempt>, paths: seq<string>, k: nat): Outcome
    requires |attempts| == MaxRetries && |paths| == MaxRetries && k <= MaxRetries
    decreases MaxRetries - k
  {
    if k == MaxRetries then Returned(None)
    else match attempts[k]
      case RateLimited => RetryFrom(attempts, paths, k + 1)
      case Failed(f) => if k == MaxRetries - 1 then Raised(f) else RetryFrom(attempts, paths, k + 1)
      case Generated(_) => Returned(Some(paths[k]))
  }

  /** Some attempt from `k` on produced an image. */
  predicate SomeGenerated(attempts: seq<Attempt>, k: nat)
  {
    exists j :: k <= j < |attempts| && attempts[j].Generated?
  }

  /**
   * The three ways a raising retry ends: with the path of the first attempt
   * that produced an image; with `None` exactly when none did and the last
   * attempt hit a 429; raising the last attempt's failure exactly when none
   * did and the last attempt failed otherwise.
   */
  lemma {:induction false} RetrySpec(attempts: seq<Attempt>, paths: seq<string>, k: nat)
    requires |attempts| == MaxRetries && |paths| == MaxRetries && k <= MaxRetries
    ensures SomeGenerated(attempts, k) ==>
      exists j :: k <= j < MaxRetries && attempts[j].Generated? && RetryFrom(attempts, paths, k) == Returned(Some(paths[j]))
        && forall j' :: k <= j' < j ==> !attempts[j'].Generated?
    ensures RetryFrom(attempts, paths, k) == Returned(None) <==>
      !SomeGenerated(attempts, k) && (k == MaxRetries || attempts[MaxRetries - 1].RateLimited?)
    ensures RetryFrom(attempts, paths, k).Raised? <==>
      !SomeGenerated(attempts, k) && k < MaxRetries && attempts[MaxRetries - 1].Failed?
    ensures RetryFrom(attempts, paths, k).Raised? ==>
      RetryFrom(attempts, paths, k).failure == attempts[MaxRetries - 1].failure
    decreases MaxRetries - k
  {
    if k < MaxRetries {
      RetrySpec(attempts, paths, k + 1);
      if attempts[k].Generated? {
        assert SomeGenerated(attempts, k);
      } else {
        assert SomeGenerated(attempts, k) <==> SomeGenerated(attempts, k + 1) by {
          if SomeGenerated(attempts, k) {
            var j :| k <= j < |attempts| && attempts[j].Generated?;
            assert k + 1 <= j;
          }
        }
      }
    }
  }

  /**
   * The retry policy of `generate_outfit_image`: every failure and every 429
   * moves on, and after the third attempt it raises "Failed to generate
   * outfit image."
   */
  function OutfitRetryFrom(attempts: seq<Attempt>, paths: seq<string>, k: nat): Outcome
    requires |attempts| == MaxRetries && |paths| == MaxRetries && k <= MaxRetries
    decreases MaxRetries - k
  {
    if k == MaxRetries then Raised(OutfitFailed)
    else match attempts[k]
      case Generated(_) => Returned(Some(paths[k]))
      case _ => OutfitRetryFrom(attempts, paths, k + 1)
  }

  /** The outfit generator never returns `None`: it returns the first image's path or raises. */
  lemma {:induction false} OutfitRetrySpec(attempts: seq<Attempt>, paths: seq<string>, k: nat)
    requires |attempts| == MaxRetries && |paths| == MaxRetries && k <= MaxRetries
    ensures OutfitRetryFrom(attempts, paths, k) == Raised(OutfitFailed) <==> !SomeGenerated(attempts, k)
    ensures OutfitRetryFrom(attempts, paths, k).Returned? ==>
      exists j :: k <= j < MaxRetries && attempts[j].Generated? && OutfitRetryFrom(attempts, paths, k) == Returned(Some(paths[j]))
        && forall j' :: k <= j' < j ==> !attempts[j'].Generated?
    decreases MaxRetries - k
  {
    if k < MaxRetries {
      OutfitRetrySpec(attempts, paths, k + 1);
      if !attempts[k].Generated? {
        assert SomeGenerated(attempts, k) <==> SomeGenerated(attempts, k + 1) by {
          if SomeGenerated(attempts, k) {
            var j :| k <= j < |attempts| && attempts[j].Generated?;
            assert k + 1 <= j;
          }
        }
      }
    }
  }

  function TryOnAttempts(replies: seq<Reply>): (a: seq<Attempt>)
    ensures |a| == |replies|
  {
    seq(|replies|, k requires 0 <= k < |replies| => TryOnAttempt(replies[k]))
  }

  /** The path each attempt would return: its output file, refined when refinement succeeds. */
  function FinalPaths(outputs: seq<string>, refinements: seq<Reply>): (p: seq<string>)
    requires |refinements| == |outputs|
    ensures |p| == |outputs|
  {
    seq(|outputs|, k requires 0 <= k < |outputs| => FinalPath(outputs[k], refinements[k]))
  }

  /**
   * `generate_tryon_image`, with `replies[k]` the server's reply to attempt
   * `k`, `outputs[k]` the file its image would be written to and `refinements[k]`
   * the reply to that image's refinement request. It also gives the prompt's
   * pose and environment lines and the attempts it made, in order.
   */
  method GenerateTryOnImage(product: ProductMetadata, replies: seq<Reply>, outputs: seq<string>, refinements: seq<Reply>)
      returns (outcome: Outcome, prompt: (PoseText, EnvironmentText), log: seq<Attempt>)
    requires |replies| == MaxRetries && |outputs| == MaxRetries && |refinements| == MaxRetries
    ensures outcome == RetryFrom(TryOnAttempts(replies), FinalPaths(outputs, refinements), 0)
    ensures prompt == TryOnPrompt(product)
    ensures 1 <= |log| <= MaxRetries && log == TryOnAttempts(replies)[..|log|]
    ensures forall k :: 0 <= k < |log| - 1 ==> !log[k].Generated?
    ensures outcome.Returned? && outcome.path.Some? ==> log[|log| - 1].Generated?
  {
    prompt := TryOnPrompt(product);
    ghost var attempts := TryOnAttempts(replies);
    ghost var paths := FinalPaths(outputs, refinements);
    log := [];
    var attempt := 0;
    while attempt < MaxRetries
      invariant 0 <= attempt <= MaxRetries
      invariant |log| == attempt && log == attempts[..attempt]
      invariant forall k :: 0 <= k < attempt ==> !log[k].Generated?
      invariant RetryFrom(attempts, paths, 0) == RetryFrom(attempts, paths, attempt)
      invariant attempt > 0 ==> attempt < MaxRetries || log[attempt - 1].RateLimited?
    {
      var result := TryOnAttempt(replies[attempt]);
      log := log + [result];
      if result.RateLimited? {
        attempt := attempt + 1;
        continue;
      }
      if result.Failed? {
        if attempt == MaxRetries - 1 {
          return Raised(result.failure), prompt, log;
        }
        attempt := attempt + 1;
        continue;
      }
      var refined := RefineResult(refinements[attempt], outputs[attempt]);
      if refined.Some? && refined.value != [] {
        return Returned(Some(refined.value)), prompt, log;
      }
      return Returned(Some(outputs[attempt])), prompt, log;
    }
    return Returned(None), prompt, log;
  }

  function OutfitAttempts(named: bool, replies: seq<Reply>): (a: seq<Attempt>)
    ensures |a| == |replies|
  {
    seq(|replies|, k requires 0 <= k < |replies| => OutfitAttempt(named, replies[k]))
  }

  /** With a record lacking its file name every outfit attempt fails, so the generator raises. */
  lemma OutfitUnnamedFails(replies: seq<Reply>, outputs: seq<string>)
    requires |replies| == MaxRetries && |outputs| == MaxRetries
    ensures OutfitRetryFrom(OutfitAttempts(false, replies), outputs, 0) == Raised(OutfitFailed)
  {
    var attempts := OutfitAttempts(false, replies);
    OutfitRetrySpec(attempts, outputs, 0);
  }

  /**
   * `generate_outfit_image` for a non-empty product list: the prompt lines of
   * the first product, three attempts that swallow every failure (including
   * the `TypeError` of a record without a file name), and the first image's
   * output file (there is no refinement pass).
   */
  method GenerateOutfitImage(products: seq<ProductMetadata>, replies: seq<Reply>, outputs: seq<string>)
      returns (outcome: Outcome, prompt: (PoseText, EnvironmentText))
    requires |products| >= 1
    requires |replies| == MaxRetries && |outputs| == MaxRetries
    ensures outcome == OutfitRetryFrom(OutfitAttempts(AllNamed(products), replies), outputs, 0)
    ensures !AllNamed(products) ==> outcome == Raised(OutfitFailed)
    ensures prompt == TryOnPrompt(products[0])
  {
    prompt := OutfitPrompt(products);
    var named := AllNamed(products);
    ghost var attempts := OutfitAttempts(named, replies);
    if !named {
      OutfitUnnamedFails(replies, outputs);
    }
    var attempt := 0;
    while attempt < MaxRetries
      invariant 0 <= attempt <= MaxRetries
      invariant OutfitRetryFrom(attempts, outputs, 0) == OutfitRetryFrom(attempts, outputs, attempt)
    {
      var result := OutfitAttempt(named, replies[attempt]);
      if result.Generated? {
        return Returned(Some(outputs[attempt])), prompt;
      }
      attempt := attempt + 1;
    }
    return Raised(OutfitFailed), prompt;
  }

  /** `os.path.join(settings.IMAGES_DIR, p.image_filename)`. */
  function ImagePathOf(p: ProductMetadata): Option<string>
  {
    match p.imageFilename
    case Some(name) => Some(JoinPath(ImagesDir, name))
    case None => None
  }

  function DualAttempts(upperPath: string, upperExists: bool, lowerPath: string, lowerExists: bool,
                        replies: seq<Reply>): (a: seq<Attempt>)
    ensures |a| == |replies|
  {
    seq(|replies|, k requires 0 <= k < |replies| => DualAttempt(upperPath, upperExists, lowerPath, lowerExists, replies[k]))
  }

  /**
   * `generate_dual_tryon` for two products with stored image files; the
   * booleans say whether each file exists. With a file missing, every attempt
   * raises before a request is sent and the third re-raises.
   */
  method GenerateDualTryOn(upper: ProductMetadata, lower: ProductMetadata, upperExists: bool, lowerExists: bool,
                           replies: seq<Reply>, outputs: seq<string>)
      returns (outcome: Outcome, lines: (Option<string>, Option<string>))
    requires upper.imageFilename.Some? && lower.imageFilename.Some?
    requires |replies| == MaxRetries && |outputs| == MaxRetries
    ensures outcome == RetryFrom(DualAttempts(ImagePathOf(upper).value, upperExists,
                                              ImagePathOf(lower).value, lowerExists, replies), outputs, 0)
    ensures !upperExists ==> outcome == Raised(MissingImage(ImagePathOf(upper).value))
    ensures lines == DualPromptLines(upper)
  {
    var upperPath := JoinPath(ImagesDir, upper.imageFilename.value);
    var lowerPath := JoinPath(ImagesDir, lower.imageFilename.value);
    lines := DualPromptLines(upper);
    ghost var attempts := DualAttempts(upperPath, upperExists, lowerPath, lowerExists, replies);
    var attempt := 0;
    while attempt < MaxRetries
      invariant 0 <= attempt <= MaxRetries
      invariant RetryFrom(attempts, outputs, 0) == RetryFrom(attempts, outputs, attempt)
      invariant !upperExists ==> attempt < MaxRetries
    {
      var result := DualAttempt(upperPath, upperExists, lowerPath, lowerExists, replies[attempt]);
      if result.RateLimited? {
        attempt := attempt + 1;
        continue;
      }
      if result.Failed? {
        if attempt == MaxRetries - 1 {
          return Raised(result.failure), lines;
        }
        attempt := attempt + 1;
        continue;
      }
      return Returned(Some(outputs[attempt])), lines;
    }
    return Returned(None), lines;
  }

  // ===========================================================================
  // batch_process
  // ===========================================================================

  function CodeOf(p: ProductMetadata): string
  {
    p.code
  }

  /** `set(p.sport for p in products)`. */
  function Sports(products: seq<ProductMetadata>): set<string>
  {
    set i | 0 <= i < |products| :: products[i].sport
  }

  /** Case 1 of `batch_process`: two or more codes, all of one sport. */
  predicate IsOutfit(products: seq<ProductMetadata>)
  {
    |Keys(products, CodeOf)| >= 2 && |Sports(products)| == 1
  }

  /** A generation call `batch_process` makes. */
  datatype Call = TryOnCall(product: ProductMetadata, imagePaths: seq<string>) | OutfitCall(products: seq<ProductMetadata>)

  /**
   * `str()` of the `TypeError` that `os.path.join` raises for a record
   * without an image file name: CPython 3.12's `posixpath.join` catches the
   * error of `os.fspath(None)` and raises this one in its place.
   */
  const NoFilenameError: string := "join() argument must be str, bytes, or os.PathLike object, not 'NoneType'"

  /** The image paths of a group, or `None` when one member has no file name (the list comprehension raises). */
  function GroupPaths(group: seq<ProductMetadata>): (r: Option<seq<string>>)
    ensures r.Some? <==> forall j :: 0 <= j < |group| ==> group[j].imageFilename.Some?
    ensures r.Some? ==> (|r.value| == |group|
      && forall j :: 0 <= j < |group| ==> r.value[j] == JoinPath(ImagesDir, group[j].imageFilename.value))
  {
    if group == [] then Some([])
    else
      var n := |group| - 1;
      assert forall j :: 0 <= j < n ==> group[..n][j] == group[j];
      match (GroupPaths(group[..n]), group[n].imageFilename)
      case (Some(prefix), Some(name)) => Some(prefix + [JoinPath(ImagesDir, name)])
      case _ => None
  }

  /** The list comprehension building a group's image paths. */
  method CollectImagePaths(group: seq<ProductMetadata>) returns (paths: Option<seq<string>>)
    ensures paths == GroupPaths(group)
  {
    var imagePaths: seq<string> := [];
    var m := 0;
    while m < |group|
      invariant 0 <= m <= |group|
      invariant GroupPaths(group[..m]) == Some(imagePaths)
    {
      assert group[..m + 1][..m] == group[..m];
      if group[m].imageFilename.None? {
        assert group[..m + 1][m] == group[m];
        GroupPathsNone(group, m);
        return None;
      }
      imagePaths := imagePaths + [JoinPath(ImagesDir, group[m].imageFilename.value)];
      m := m + 1;
    }
    assert group[..|group|] == group;
    return Some(imagePaths);
  }

  lemma GroupPathsNone(group: seq<ProductMetadata>, m: nat)
    requires m < |group| && group[m].imageFilename.None?
    ensures GroupPaths(group).None?
  {
  }

  /** A call's result as `results.append(...)` keeps it: returned values (even `None`) stay, exceptions drop out. */
  function Kept(outcome: Outcome): seq<Option<string>>
  {
    match outcome
    case Returned(path) => [path]
    case Raised(_) => []
  }

  /** The try-on call for a code's group: its first record and all its image paths. */
  function GroupCall(products: seq<ProductMetadata>, code: string): Option<Call>
  {
    var group := Members(products, CodeOf, code);
    if group == [] then None
    else match GroupPaths(group)
      case None => None
      case Some(paths) => Some(TryOnCall(group[0], paths))
  }

  /** What a run of `batch_process` returns (or the error it raises) and the calls it made, in order. */
  datatype BatchRun = BatchRun(results: Result<seq<Option<string>>, string>, calls: seq<Call>)

  /**
   * Case 2 of `batch_process` over the first groups `codes`: one try-on call
   * per group until a group without file names raises.
   */
  function PerGroup(products: seq<ProductMetadata>, tryOn: (ProductMetadata, seq<string>) -> Outcome,
                    codes: seq<string>): BatchRun
  {
    if codes == [] then BatchRun(Ok([]), [])
    else
      var prev := PerGroup(products, tryOn, codes[..|codes| - 1]);
      if prev.results.Err? then prev
      else match GroupCall(products, codes[|codes| - 1])
        case None => BatchRun(Err(NoFilenameError), prev.calls)
        case Some(call) =>
          BatchRun(Ok(prev.results.value + Kept(tryOn(call.product, call.imagePaths))), prev.calls + [call])
  }

  /** What `batch_process` returns (or raises) and the generation calls it makes, in order. */
  function BatchSpec(products: seq<ProductMetadata>, tryOn: (ProductMetadata, seq<string>) -> Outcome,
                     outfit: seq<ProductMetadata> -> Outcome): BatchRun
  {
    if products == [] then BatchRun(Ok([]), [])
    else if IsOutfit(products) then BatchRun(Ok(Kept(outfit(products))), [OutfitCall(products)])
    else PerGroup(products, tryOn, Keys(products, CodeOf))
  }

  /** The group loop of case 2, over the dict built by the grouping loop. */
  method ProcessGroups(products: seq<ProductMetadata>, tryOn: (ProductMetadata, seq<string>) -> Outcome,
                       uniqueCodes: seq<string>, grouped: map<string, seq<ProductMetadata>>)
      returns (run: BatchRun)
    requires forall k :: k in uniqueCodes ==> k in grouped && grouped[k] == Members(products, CodeOf, k)
    ensures run == PerGroup(products, tryOn, uniqueCodes)
  {
    var results: seq<Option<string>> := [];
    var calls: seq<Call> := [];
    var j := 0;
    while j < |uniqueCodes|
      invariant 0 <= j <= |uniqueCodes|
      invariant PerGroup(products, tryOn, uniqueCodes[..j]) == BatchRun(Ok(results), calls)
    {
      var code := uniqueCodes[j];
      var group := grouped[code];
      assert uniqueCodes[..j + 1][..j] == uniqueCodes[..j];
      var paths := CollectImagePaths(group);
      if group == [] || paths.None? {
        PerGroupErrPersists(products, tryOn, uniqueCodes, j + 1);
        return BatchRun(Err(NoFilenameError), calls);
      }
      var productMeta := group[0];
      var imagePaths := paths.value;
      var outcome := tryOn(productMeta, imagePaths);
      results := results + Kept(outcome);
      calls := calls + [TryOnCall(productMeta, imagePaths)];
      j := j + 1;
    }
    assert uniqueCodes[..|uniqueCodes|] == uniqueCodes;
    return BatchRun(Ok(results), calls);
  }

  /**
   * `batch_process`, with `tryOn` and `outfit` the outcomes of
   * `generate_tryon_image` and `generate_outfit_image` for each call (one
   * variation each).
   */
  method BatchProcess(products: seq<ProductMetadata>, tryOn: (ProductMetadata, seq<string>) -> Outcome,
                      outfit: seq<ProductMetadata> -> Outcome)
      returns (run: BatchRun)
    ensures run == BatchSpec(products, tryOn, outfit)
  {
    if |products| == 0 {
      return BatchRun(Ok([]), []);
    }
    var uniqueCodes, grouped := GroupBy(products, CodeOf);
    var numProducts := |uniqueCodes|;
    var uniqueSports := set i | 0 <= i < |products| :: products[i].sport;
    if numProducts >= 2 && |uniqueSports| == 1 {
      var outcome := outfit(products);
      return BatchRun(Ok(Kept(outcome)), [OutfitCall(products)]);
    }
    run := ProcessGroups(products, tryOn, uniqueCodes, grouped);
  }

  /**
   * A lone record without an image file name: `batch_process` raises
   * `os.path.join`'s `TypeError` from the path comprehension, before any
   * generation call.
   */
  lemma BatchUnnamedRaises(r: ProductMetadata, tryOn: (ProductMetadata, seq<string>) -> Outcome,
                           outfit: seq<ProductMetadata> -> Outcome)
    requires r.imageFilename.None?
    ensures BatchSpec([r], tryOn, outfit) == BatchRun(Err(NoFilenameError), [])
  {
    var codes := [CodeOf(r)];
    LoneKeys(r);
    assert !IsOutfit([r]);
    LoneGroupCall(r);
    assert codes[..0] == [];
    assert PerGroup([r], tryOn, codes[..0]) == BatchRun(Ok([]), []);
  }

  /** One record gives one code. */
  lemma LoneKeys(r: ProductMetadata)
    ensures Keys([r], CodeOf) == [CodeOf(r)]
  {
    assert [r][..0] == [];
  }

  /** The group of a lone unnamed record has no call. */
  lemma LoneGroupCall(r: ProductMetadata)
    requires r.imageFilename.None?
    ensures GroupCall([r], CodeOf(r)) == None
  {
    assert [r][..0] == [];
    assert Members([r], CodeOf, CodeOf(r)) == [r];
    assert GroupPaths([r]) == None;
  }

  /** Once a group raises, later groups make no calls and the error stays. */
  lemma {:induction false} PerGroupErrPersists(products: seq<ProductMetadata>, tryOn: (ProductMetadata, seq<string>) -> Outcome,
                                               codes: seq<string>, n: nat)
    requires n <= |codes| && PerGroup(products, tryOn, codes[..n]).results.Err?
    ensures PerGroup(products, tryOn, codes) == PerGroup(products, tryOn, codes[..n])
    decreases |codes| - n
  {
    if n == |codes| {
      assert codes[..n] == codes;
    } else {
      var init := codes[..|codes| - 1];
      assert init[..n] == codes[..n];
      PerGroupErrPersists(products, tryOn, init, n);
    }
  }

  /** Every record carries an image file name, as every record the matcher builds does. */
  predicate AllNamed(products: seq<ProductMetadata>)
  {
    forall j :: 0 <= j < |products| ==> products[j].imageFilename.Some?
  }

  /** With every record named, each code that occurs has a call: a non-empty group with paths. */
  lemma GroupNamed(products: seq<ProductMetadata>, code: string)
    requires AllNamed(products) && code in Keys(products, CodeOf)
    ensures GroupCall(products, code).Some?
    ensures GroupCall(products, code).value.product == Members(products, CodeOf, code)[0]
    ensures |GroupCall(products, code).value.imagePaths| == |Members(products, CodeOf, code)|
  {
    MembersSpec(products, CodeOf, code);
    var group := Members(products, CodeOf, code);
    forall t | 0 <= t < |group| ensures group[t].imageFilename.Some? {
      MembersOf(products, CodeOf, code, group[t]);
    }
  }

  /** One result per call that returned. */
  function ReturnedCount(calls: seq<Call>, tryOn: (ProductMetadata, seq<string>) -> Outcome): nat
  {
    if calls == [] then 0
    else
      var last := calls[|calls| - 1];
      ReturnedCount(calls[..|calls| - 1], tryOn)
        + (if last.TryOnCall? && tryOn(last.product, last.imagePaths).Returned? then 1 else 0)
  }

  lemma {:induction false} ReturnedCountBound(calls: seq<Call>, tryOn: (ProductMetadata, seq<string>) -> Outcome)
    ensures ReturnedCount(calls, tryOn) <= |calls|
  {
    if calls != [] {
      ReturnedCountBound(calls[..|calls| - 1], tryOn);
    }
  }

  /** One more group that has a call extends a run that has not raised by that call. */
  lemma PerGroupStep(products: seq<ProductMetadata>, tryOn: (ProductMetadata, seq<string>) -> Outcome,
                     codes: seq<string>)
    requires codes != [] && GroupCall(products, codes[|codes| - 1]).Some?
    requires PerGroup(products, tryOn, codes[..|codes| - 1]).results.Ok?
    ensures var prev := PerGroup(products, tryOn, codes[..|codes| - 1]);
      var call := GroupCall(products, codes[|codes| - 1]).value;
      PerGroup(products, tryOn, codes)
        == BatchRun(Ok(prev.results.value + Kept(tryOn(call.product, call.imagePaths))), prev.calls + [call])
  {
  }

  /** Every code of `codes` has a group with file names, so a try-on call. */
  predicate AllGrouped(products: seq<ProductMetadata>, codes: seq<string>)
  {
    forall j :: 0 <= j < |codes| ==> GroupCall(products, codes[j]).Some?
  }

  /** `calls` is one call per code of `codes`, in order, each the code's `GroupCall`. */
  predicate CallsFor(products: seq<ProductMetadata>, codes: seq<string>, calls: seq<Call>)
  {
    |calls| == |codes| && forall j :: 0 <= j < |codes| ==> GroupCall(products, codes[j]) == Some(calls[j])
  }

  /**
   * Case 2 over the first groups, when every group has a call: one try-on
   * call per group, in the order of `codes`, each the group's `GroupCall`.
   */
  lemma {:induction false} PerGroupCalls(products: seq<ProductMetadata>, tryOn: (ProductMetadata, seq<string>) -> Outcome,
                                         codes: seq<string>)
    requires AllGrouped(products, codes)
    ensures PerGroup(products, tryOn, codes).results.Ok?
    ensures CallsFor(products, codes, PerGroup(products, tryOn, codes).calls)
  {
    if codes != [] {
      var init := codes[..|codes| - 1];
      var last := codes[|codes| - 1];
      assert AllGrouped(products, init) by {
        assert forall j :: 0 <= j < |init| ==> init[j] == codes[j];
      }
      PerGroupCalls(products, tryOn, init);
      PerGroupStep(products, tryOn, codes);
      assert codes == init + [last];
      CallsSnoc(products, init, last, PerGroup(products, tryOn, init).calls, GroupCall(products, last).value);
    }
  }

  lemma CallsSnoc(products: seq<ProductMetadata>, init: seq<string>, last: string, calls: seq<Call>, call: Call)
    requires CallsFor(products, init, calls)
    requires GroupCall(products, last) == Some(call)
    ensures CallsFor(products, init + [last], calls + [call])
  {
    forall j | 0 <= j < |init| + 1 ensures GroupCall(products, (init + [last])[j]) == Some((calls + [call])[j]) {
      if j < |init| {
        assert (init + [last])[j] == init[j] && (calls + [call])[j] == calls[j];
      } else {
        assert (init + [last])[j] == last && (calls + [call])[j] == call;
      }
    }
  }

  /** A run that has not raised holds one result per call that returned. */
  lemma {:induction false} PerGroupCount(products: seq<ProductMetadata>, tryOn: (ProductMetadata, seq<string>) -> Outcome,
                                         codes: seq<string>)
    requires PerGroup(products, tryOn, codes).results.Ok?
    ensures |PerGroup(products, tryOn, codes).results.value| == ReturnedCount(PerGroup(products, tryOn, codes).calls, tryOn)
  {
    if codes != [] {
      var init := codes[..|codes| - 1];
      var prev := PerGroup(products, tryOn, init);
      assert prev.results.Ok?;
      PerGroupCount(products, tryOn, init);
      var call := GroupCall(products, codes[|codes| - 1]).value;
      PerGroupStep(products, tryOn, codes);
      var calls := prev.calls + [call];
      assert calls[..|calls| - 1] == prev.calls;
    }
  }

  /** An empty product list returns `[]` without any generation call. */
  lemma BatchEmpty(tryOn: (ProductMetadata, seq<string>) -> Outcome, outfit: seq<ProductMetadata> -> Outcome)
    ensures BatchSpec([], tryOn, outfit) == BatchRun(Ok([]), [])
  {
  }

  lemma SingletonSet(s: set<string>, a: string, b: string)
    requires |s| == 1 && a in s && b in s
    ensures a == b
  {
    var t := s - {a};
    assert |t| == 0;
    assert b !in t;
  }

  /**
   * The outfit case makes exactly one call, with every product, and returns
   * at most one result; it is taken only when all products share one sport.
   */
  lemma BatchOutfit(products: seq<ProductMetadata>, tryOn: (ProductMetadata, seq<string>) -> Outcome,
                    outfit: seq<ProductMetadata> -> Outcome)
    requires IsOutfit(products)
    ensures BatchSpec(products, tryOn, outfit).calls == [OutfitCall(products)]
    ensures BatchSpec(products, tryOn, outfit).results.Ok? && |BatchSpec(products, tryOn, outfit).results.value| <= 1
    ensures forall i :: 0 <= i < |products| ==> products[i].sport == products[0].sport
  {
    KeysSpec(products, CodeOf);
    assert products != [];
    assert BatchSpec(products, tryOn, outfit) == BatchRun(Ok(Kept(outfit(products))), [OutfitCall(products)]);
    assert products[0].sport in Sports(products);
    forall i | 0 <= i < |products| ensures products[i].sport == products[0].sport {
      assert products[i].sport in Sports(products);
      SingletonSet(Sports(products), products[i].sport, products[0].sport);
    }
  }

  /**
   * Otherwise (every record carrying a file name) there is one try-on call
   * per distinct code, in first-seen order, with that code's first record and
   * all its image paths; results never outnumber the groups.
   */
  lemma BatchPerGroup(products: seq<ProductMetadata>, tryOn: (ProductMetadata, seq<string>) -> Outcome,
                      outfit: seq<ProductMetadata> -> Outcome)
    requires products != [] && !IsOutfit(products)
    requires AllNamed(products)
    ensures var run := BatchSpec(products, tryOn, outfit);
      var codes := Keys(products, CodeOf);
      run.results.Ok? && |run.calls| == |codes|
      && (forall j :: 0 <= j < |codes| ==> GroupCall(products, codes[j]) == Some(run.calls[j]))
      && |run.results.value| == ReturnedCount(run.calls, tryOn) <= |codes|
  {
    var codes := Keys(products, CodeOf);
    forall j | 0 <= j < |codes| ensures GroupCall(products, codes[j]).Some? {
      GroupNamed(products, codes[j]);
    }
    assert AllGrouped(products, codes);
    PerGroupCalls(products, tryOn, codes);
    PerGroupCount(products, tryOn, codes);
    ReturnedCountBound(PerGroup(products, tryOn, codes).calls, tryOn);
  }

  // ===========================================================================
  // batch_dual_process
  // ===========================================================================

  /** The results of `batch_dual_process`: pair `i` is called with variation `i`; raising pairs drop out. */
  function DualResults(pairs: seq<(ProductMetadata, ProductMetadata)>,
                       dual: (ProductMetadata, ProductMetadata, nat) -> Outcome): seq<Option<string>>
  {
    if pairs == [] then []
    else
      var n := |pairs| - 1;
      DualResults(pairs[..n], dual) + Kept(dual(pairs[n].0, pairs[n].1, n))
  }

  /** `batch_dual_process`, with `dual` the outcome of `generate_dual_tryon` for each call. */
  method BatchDualProcess(pairs: seq<(ProductMetadata, ProductMetadata)>,
                          dual: (ProductMetadata, ProductMetadata, nat) -> Outcome)
      returns (results: seq<Option<string>>)
    ensures results == DualResults(pairs, dual)
  {
    results := [];
    var i := 0;
    while i < |pairs|
      invariant 0 <= i <= |pairs|
      invariant results == DualResults(pairs[..i], dual)
    {
      var (upper, lower) := pairs[i];
      var outcome := dual(upper, lower, i);
      assert pairs[..i + 1][..i] == pairs[..i];
      if outcome.Returned? {
        results := results + [outcome.path];
      }
      i := i + 1;
    }
    assert pairs[..|pairs|] == pairs;
  }

  /**
   * Pair order is kept and failed pairs are dropped: at most one result per
   * pair, and exactly one each, in order, when no call raises.
   */
  lemma DualResultsSpec(pairs: seq<(ProductMetadata, ProductMetadata)>,
                        dual: (ProductMetadata, ProductMetadata, nat) -> Outcome)
    ensures |DualResults(pairs, dual)| <= |pairs|
    ensures (forall i :: 0 <= i < |pairs| ==> dual(pairs[i].0, pairs[i].1, i).Returned?) ==>
      |DualResults(pairs, dual)| == |pairs|
      && forall i :: 0 <= i < |pairs| ==> DualResults(pairs, dual)[i] == dual(pairs[i].0, pairs[i].1, i).path
  {
    DualResultsBound(pairs, dual);
    if forall i :: 0 <= i < |pairs| ==> dual(pairs[i].0, pairs[i].1, i).Returned? {
      DualResultsAll(pairs, dual);
    }
  }

  lemma {:induction false} DualResultsBound(pairs: seq<(ProductMetadata, ProductMetadata)>,
                                            dual: (ProductMetadata, ProductMetadata, nat) -> Outcome)
    ensures |DualResults(pairs, dual)| <= |pairs|
  {
    if pairs != [] {
      DualResultsBound(pairs[..|pairs| - 1], dual);
    }
  }

  lemma {:induction false} DualResultsAll(pairs: seq<(ProductMetadata, ProductMetadata)>,
                                          dual: (ProductMetadata, ProductMetadata, nat) -> Outcome)
    requires forall i :: 0 <= i < |pairs| ==> dual(pairs[i].0, pairs[i].1, i).Returned?
    ensures |DualResults(pairs, dual)| == |pairs|
    ensures forall i :: 0 <= i < |pairs| ==> DualResults(pairs, dual)[i] == dual(pairs[i].0, pairs[i].1, i).path
  {
    if pairs != [] {
      var n := |pairs| - 1;
      var init := pairs[..n];
      assert forall i :: 0 <= i < n ==> init[i] == pairs[i];
      DualResultsAll(init, dual);
      var before := DualResults(init, dual);
      var last := dual(pairs[n].0, pairs[n].1, n);
      assert DualResults(pairs, dual) == before + [last.path];
      forall i | 0 <= i < |pairs| ensures DualResults(pairs, dual)[i] == dual(pairs[i].0, pairs[i].1, i).path {
        if i < n {
          assert DualResults(pairs, dual)[i] == before[i];
        }
      }
    }
  }
}
