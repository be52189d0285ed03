/** The meme query hooks: cache updates after upload, delete and update, the retry delay and the upload flow. */
module Memes {
  import opened Wrappers
  import opened Text
  import opened Types
  import CloudFront
  import Api
  import Seqs

  /** `2 ** n` */
  function Pow2(n: nat): (r: nat)
    ensures r >= 1
  {
    if n == 0 then 1 else 2 * Pow2(n - 1)
  }

  lemma {:induction false} Pow2Monotone(a: nat, b: nat)
    requires a <= b
    ensures Pow2(a) <= Pow2(b)
    decreases b
  {
    if a < b {
      Pow2Monotone(a, b - 1);
    }
  }

  /** The longest wait between retries, in milliseconds. */
  const MaxRetryDelay: nat := 30000

  /** `retryDelay(attempt) = Math.min(1000 * 2 ** attempt, 30000)` */
  function RetryDelay(attempt: nat): (ms: nat)
    ensures ms <= MaxRetryDelay
    ensures ms >= 1000
  {
    if 1000 * Pow2(attempt) < MaxRetryDelay then 1000 * Pow2(attempt) else MaxRetryDelay
  }

  /** Waiting never gets shorter from one attempt to the next. */
  lemma RetryDelayMonotone(a: nat, b: nat)
    requires a <= b
    ensures RetryDelay(a) <= RetryDelay(b)
  {
    Pow2Monotone(a, b);
  }

  /** The delay doubles through attempt 4 (16 s) and is capped from attempt 5 on. */
  lemma {:induction false} RetryDelaySchedule(attempt: nat)
    ensures attempt <= 4 ==> RetryDelay(attempt) == 1000 * Pow2(attempt)
    ensures attempt >= 5 ==> RetryDelay(attempt) == MaxRetryDelay
  {
    assert Pow2(4) == 16 && Pow2(5) == 32;
    if attempt <= 4 {
      Pow2Monotone(attempt, 4);
    } else {
      Pow2Monotone(5, attempt);
    }
  }

  /** The query function of `useMemes`: every fetched meme with its `url` sent through the CDN helper. */
  function FetchedMemes(domain: string, parse: string -> Option<string>, memes: seq<Meme>): seq<Meme> {
    CloudFront.TransformImageUrls(domain, parse, memes)
  }

  /** Fetched memes keep every key but `url`, in the order the server sent them, and a refetch of them is stable. */
  lemma FetchedMemesSpec(domain: string, parse: string -> Option<string>, memes: seq<Meme>)
    ensures var r := FetchedMemes(domain, parse, memes);
      |r| == |memes|
      && (forall i :: 0 <= i < |memes| ==>
            r[i].(url := memes[i].url) == memes[i]
            && r[i].url == CloudFront.GetCloudFrontUrl(domain, parse, Some(memes[i].url)))
      && FetchedMemes(domain, parse, r) == r
  {
    CloudFront.TransformIdempotent(domain, parse, memes);
  }

  // ---------------------------------------------------------------------------------------------
  // Cache updaters (the `setQueryData` callbacks of the mutation `onSuccess` handlers)
  // ---------------------------------------------------------------------------------------------

  /** `old?.filter(meme => meme.id !== deletedId)` */
  function CacheAfterDelete(cache: Option<seq<Meme>>, deletedId: string): (r: Option<seq<Meme>>)
    ensures r.None? <==> cache.None?
  {
    if cache.None? then None else Some(RemoveById(cache.value, deletedId))
  }

  /** After a delete, the cached list has lost exactly the entries with that id, order and copies otherwise kept. */
  lemma CacheAfterDeleteSpec(cache: Option<seq<Meme>>, deletedId: string)
    ensures cache.None? ==> CacheAfterDelete(cache, deletedId).None?
    ensures cache.Some? ==> var r := CacheAfterDelete(cache, deletedId).value;
      (forall x :: x in r ==> x.id != deletedId)
      && (forall x: Meme :: x.id != deletedId ==> multiset(r)[x] == multiset(cache.value)[x])
      && Seqs.IsSubsequence(r, cache.value)
  {
    if cache.Some? {
      RemoveByIdSpec(cache.value, deletedId);
    }
  }

  /** `old?.map(meme => meme.id === updated.id ? { ...meme, ...updated } : meme)` */
  function CacheAfterUpdate(cache: Option<seq<Meme>>, updated: Meme): (r: Option<seq<Meme>>)
    ensures r.None? <==> cache.None?
    ensures r.Some? ==> |r.value| == |cache.value|
  {
    if cache.None? then None else Some(UpdateById(cache.value, updated.id, AsPatch(updated)))
  }

  /** After an update, entries with the server record's id carry its keys, the others are untouched. */
  lemma CacheAfterUpdateSpec(cache: seq<Meme>, updated: Meme, i: nat)
    requires i < |cache|
    ensures var r := CacheAfterUpdate(Some(cache), updated).value;
      (cache[i].id != updated.id ==> r[i] == cache[i])
      && (cache[i].id == updated.id ==>
            r[i].id == updated.id && r[i].url == updated.url && r[i].originalName == updated.originalName
            && r[i].size == updated.size && r[i].uploadDate == updated.uploadDate
            && r[i].filename == (if updated.filename.Some? then updated.filename else cache[i].filename)
            && r[i].mimeType == (if updated.mimeType.Some? then updated.mimeType else cache[i].mimeType)
            && r[i].description == (if updated.description.Some? then updated.description else cache[i].description)
            && r[i].category == (if updated.category.Some? then updated.category else cache[i].category)
            && r[i].path == (if updated.path.Some? then updated.path else cache[i].path))
  {
  }

  /** Receiving the same server record twice has the effect of receiving it once. */
  lemma CacheAfterUpdateIdempotent(cache: Option<seq<Meme>>, updated: Meme)
    ensures CacheAfterUpdate(CacheAfterUpdate(cache, updated), updated) == CacheAfterUpdate(cache, updated)
  {
    if cache.Some? {
      UpdateByIdIdempotent(cache.value, updated.id, AsPatch(updated));
    }
  }

  // ---------------------------------------------------------------------------------------------
  // Upload
  // ---------------------------------------------------------------------------------------------

  /** The browser `File` being uploaded. */
  datatype UploadFile = UploadFile(name: string, mimeType: string, size: int)

  /** The body sent to the presign endpoint. */
  datatype PresignRequest = PresignRequest(filename: string, mimeType: string, size: int)

  /** The presign endpoint's answer; `uploadUrl` and `key` may be missing. */
  datatype PresignResponse = PresignResponse(uploadUrl: Option<string>, key: Option<string>, memeId: string)

  /** What the upload `mutationFn` resolves to. */
  datatype UploadedMeme = UploadedMeme(
    id: string, key: string, url: string, originalName: string, size: int, mimeType: string, uploadDate: string)

  /** The largest accepted file, 10 MiB. */
  const MaxUploadBytes: int := 10 * 1024 * 1024

  const NotAnImage: string := "Only image files are allowed"
  const TooLarge: string := "Image must be 10MB or less"
  const InvalidPresign: string := "Invalid presign response"

  /** The two checks made before anything is sent: an image MIME type, then at most 10 MiB. */
  function ValidateFile(file: UploadFile): (r: Option<string>)
    ensures r.None? <==> StartsWith(file.mimeType, "image/") && file.size <= MaxUploadBytes
    ensures !StartsWith(file.mimeType, "image/") ==> r == Some(NotAnImage)
    ensures StartsWith(file.mimeType, "image/") && file.size > MaxUploadBytes ==> r == Some(TooLarge)
  {
    if !StartsWith(file.mimeType, "image/") then Some(NotAnImage)
    else if file.size > MaxUploadBytes then Some(TooLarge)
    else None
  }

  /** A file of exactly 10 MiB is accepted, one byte more is refused. */
  lemma SizeBoundary(name: string, mimeType: string)
    requires StartsWith(mimeType, "image/")
    ensures ValidateFile(UploadFile(name, mimeType, 10485760)).None?
    ensures ValidateFile(UploadFile(name, mimeType, 10485761)) == Some(TooLarge)
  {
  }

  /** The upload `mutationFn`: validate, presign, PUT the file to the presigned URL, describe the new meme.
      `presign` and `put` stand for the two network calls (`Failure` when they throw); `put` answers a status. */
  method UploadMeme(domain: string, parse: string -> Option<string>, file: UploadFile,
                    presign: PresignRequest -> Result<PresignResponse, string>,
                    put: (string, UploadFile) -> Result<int, string>,
                    uploadDate: string)
    returns (r: Result<UploadedMeme, string>)
    ensures ValidateFile(file).Some? ==> r == Failure(ValidateFile(file).value)
    ensures ValidateFile(file).None? ==>
      var answer := presign(PresignRequest(file.name, file.mimeType, file.size));
      (answer.Failure? ==> r == Failure(answer.error))
      && (answer.Success? && !(Truthy(answer.value.uploadUrl) && Truthy(answer.value.key)) ==> r == Failure(InvalidPresign))
      && (answer.Success? && Truthy(answer.value.uploadUrl) && Truthy(answer.value.key) ==>
            var sent := put(answer.value.uploadUrl.value, file);
            (sent.Failure? ==> r == Failure(sent.error))
            && (sent.Success? && !Api.IsOkStatus(sent.value) ==> r == Failure("Upload failed: " + IntToString(sent.value))))
    ensures
      var answer := presign(PresignRequest(file.name, file.mimeType, file.size));
      ValidateFile(file).None? && answer.Success?
      && Truthy(answer.value.uploadUrl) && Truthy(answer.value.key)
      && put(answer.value.uploadUrl.value, file).Success? && Api.IsOkStatus(put(answer.value.uploadUrl.value, file).value)
      ==> r.Success?
    ensures r.Success? ==>
      var answer := presign(PresignRequest(file.name, file.mimeType, file.size));
      ValidateFile(file).None? && answer.Success?
      && Truthy(answer.value.uploadUrl) && Truthy(answer.value.key)
      && put(answer.value.uploadUrl.value, file).Success? && Api.IsOkStatus(put(answer.value.uploadUrl.value, file).value)
      && r.value == UploadedMeme(answer.value.memeId, answer.value.key.value,
                                 CloudFront.GetCloudFrontUrl(domain, parse, answer.value.key),
                                 file.name, file.size, file.mimeType, uploadDate)
  {
    var invalid := ValidateFile(file);
    if invalid.Some? {
      return Failure(invalid.value);
    }
    var presignData := presign(PresignRequest(file.name, file.mimeType, file.size));
    if presignData.Failure? {
      return Failure(presignData.error);
    }
    var data := presignData.value;
    if !Truthy(data.uploadUrl) || !Truthy(data.key) {
      return Failure(InvalidPresign);
    }
    var uploadResponse := put(data.uploadUrl.value, file);
    if uploadResponse.Failure? {
      return Failure(uploadResponse.error);
    }
    if !Api.IsOkStatus(uploadResponse.value) {
      return Failure("Upload failed: " + IntToString(uploadResponse.value));
    }
    r := Success(UploadedMeme(data.memeId, data.key.value, CloudFront.GetCloudFrontUrl(domain, parse, data.key),
                              file.name, file.size, file.mimeType, uploadDate));
  }

  /** The cached record built from an uploaded meme: `filename` is the original name. */
  function CachedUpload(m: UploadedMeme): Meme {
    Meme(m.id, m.url, m.originalName, Some(m.originalName), m.size, Some(m.mimeType), m.uploadDate, None, None, None)
  }

  /** `old ? [meme, ...old] : [meme]` */
  function CacheAfterUpload(cache: Option<seq<Meme>>, m: UploadedMeme): (r: seq<Meme>)
    ensures |r| >= 1 && r[0] == CachedUpload(m)
    ensures r[1..] == cache.GetOr([])
    ensures r[0].filename == Some(r[0].originalName)
  {
    if cache.Some? then [CachedUpload(m)] + cache.value else [CachedUpload(m)]
  }

  /** Deleting a freshly uploaded meme whose id was new gives the cache back as it was. */
  lemma UploadThenDelete(cache: seq<Meme>, m: UploadedMeme)
    requires forall x :: x in cache ==> x.id != m.id
    ensures CacheAfterDelete(Some(CacheAfterUpload(Some(cache), m)), m.id) == Some(cache)
  {
    Seqs.FilterPrepend(CachedUpload(m), cache, IdIsNot(m.id));
    RemoveAbsentId(cache, m.id);
  }
}
