/**
 * The storage client: request records with bucket defaulting, the
 * continuation-token listing loop, and the bucket-list normalisation.
 *
 * The vendor SDK is replaced by what it answers. A listing backend is a
 * finite script of page-or-error replies, consumed one per request; the loop
 * returns, beside its result, the requests it issued, so that what is sent
 * on each round can be stated.
 */
module S3Client {
  import opened Results

  /** An entry of `CommonPrefixes`: a "directory" grouped by the delimiter. */
  datatype CommonPrefix = CommonPrefix(prefix: string)

  /** An entry of `Contents`: an object key and its size in bytes. */
  datatype ObjectEntry = ObjectEntry(key: string, size: nat)

  /** One reply of `listObjectsV2`; a property the reply lacks is `None`. */
  datatype Page = Page(
    commonPrefixes: Option<seq<CommonPrefix>>,
    contents: Option<seq<ObjectEntry>>,
    isTruncated: bool,
    nextContinuationToken: Option<string>)

  /** Whatever the SDK rejects a call with; it is passed through untouched. */
  datatype BackendError = BackendError(message: string)

  type PageResult = Result<Page, BackendError>

  /**
   * The parameters of a `listObjectsV2` call. `bucket` is `None` for a null
   * bucket; `delimiter` is `None` when the record has no `Delimiter`;
   * `continuationToken` is `None` until a truncated page has been seen (or
   * when that page had no `NextContinuationToken`).
   */
  datatype ListRequest = ListRequest(
    bucket: Option<string>,
    delimiter: Option<string>,
    prefix: string,
    continuationToken: Option<string>)

  /** The parameters of a `getObject` call. */
  datatype GetObjectRequest = GetObjectRequest(bucket: Option<string>, key: string)

  /** The value a listing resolves with. */
  datatype Listing = Listing(commonPrefixes: seq<CommonPrefix>, contents: seq<ObjectEntry>)

  /** An element of `Buckets` in the `listBuckets` reply. */
  datatype Bucket = Bucket(name: string)

  /** What the `Buckets` property of a `listBuckets` reply holds. */
  datatype BucketsProperty = BucketArray(buckets: seq<Bucket>) | NotAnArray

  /** A `listBuckets` reply; `buckets` is `None` when the property is absent. */
  datatype BucketsReply = BucketsReply(buckets: Option<BucketsProperty>)

  // ---------------------------------------------------------------------------
  // What a page contributes, and the aggregate of a run of pages
  // ---------------------------------------------------------------------------

  /** The common prefixes a page contributes: none when it lacks the property. */
  function PrefixesOf(p: Page): seq<CommonPrefix> {
    p.commonPrefixes.GetOr([])
  }

  /** The contents a page contributes: none when it lacks the property. */
  function ContentsOf(p: Page): seq<ObjectEntry> {
    p.contents.GetOr([])
  }

  /**
   * The listing made of a run of pages: each list is the concatenation, in
   * page order, of what every page contributes.
   */
  function Aggregate(pages: seq<Page>): Listing
    decreases |pages|
  {
    if pages == [] then Listing([], [])
    else
      var rest := Aggregate(pages[1..]);
      Listing(PrefixesOf(pages[0]) + rest.commonPrefixes, ContentsOf(pages[0]) + rest.contents)
  }

  /** Aggregating two runs of pages concatenates their aggregates. */
  lemma {:induction false} AggregateConcat(a: seq<Page>, b: seq<Page>)
    ensures Aggregate(a + b).commonPrefixes == Aggregate(a).commonPrefixes + Aggregate(b).commonPrefixes
    ensures Aggregate(a + b).contents == Aggregate(a).contents + Aggregate(b).contents
    decreases |a|
  {
    if a == [] {
      assert a + b == b;
    } else {
      assert (a + b)[1..] == a[1..] + b;
      AggregateConcat(a[1..], b);
    }
  }

  /** Appending one page appends exactly what that page contributes. */
  lemma AggregateAppend(pages: seq<Page>, p: Page)
    ensures Aggregate(pages + [p]) == Listing(
      Aggregate(pages).commonPrefixes + PrefixesOf(p),
      Aggregate(pages).contents + ContentsOf(p))
  {
    AggregateConcat(pages, [p]);
    assert [p][1..] == [];
  }

  /** A page that lacks both properties (or has them empty) contributes nothing. */
  lemma EmptyPageContributesNothing(a: seq<Page>, p: Page, b: seq<Page>)
    requires PrefixesOf(p) == [] && ContentsOf(p) == []
    ensures Aggregate(a + [p] + b) == Aggregate(a + b)
  {
    AggregateConcat(a + [p], b);
    AggregateAppend(a, p);
    AggregateConcat(a, b);
  }

  // ---------------------------------------------------------------------------
  // The scripted backend and where the loop stops
  // ---------------------------------------------------------------------------

  /** The loop stops after a reply that is an error or a non-truncated page. */
  predicate Stops(r: PageResult) {
    r.Failure? || !r.value.isTruncated
  }

  /** The script eventually stops the loop (otherwise the source never settles). */
  predicate Terminates(script: seq<PageResult>) {
    exists k :: 0 <= k < |script| && Stops(script[k])
  }

  /** The index of the last reply the loop consumes: the first stopping one. */
  function StopIndex(script: seq<PageResult>): (k: nat)
    requires Terminates(script)
    ensures k < |script| && Stops(script[k])
    ensures forall j :: 0 <= j < k ==> !Stops(script[j])
    decreases |script|
  {
    if Stops(script[0]) then 0
    else
      var k :| 0 <= k < |script| && Stops(script[k]);
      assert Stops(script[1..][k - 1]);
      1 + StopIndex(script[1..])
  }

  /** The pages of a run of replies that are all successful. */
  function PagesOf(rs: seq<PageResult>): (pages: seq<Page>)
    requires forall i :: 0 <= i < |rs| ==> rs[i].Success?
    ensures |pages| == |rs| && forall i :: 0 <= i < |rs| ==> rs[i] == Success(pages[i])
  {
    seq(|rs|, i requires 0 <= i < |rs| => rs[i].value)
  }

  /**
   * What the listing loop settles with on a script: the error of the reply
   * that stopped it, or the aggregate of every page it consumed.
   */
  function ListAll(script: seq<PageResult>): Result<Listing, BackendError>
    requires Terminates(script)
  {
    var k := StopIndex(script);
    match script[k]
    case Failure(e) => Failure(e)
    case Success(_) => Success(Aggregate(PagesOf(script[..k + 1])))
  }

  /** The first stopping reply is the one at `k` when all before it continue. */
  lemma {:induction false} StopIndexAt(script: seq<PageResult>, k: nat)
    requires k < |script| && Stops(script[k])
    requires forall j :: 0 <= j < k ==> !Stops(script[j])
    ensures Terminates(script) && StopIndex(script) == k
  {
    if k > 0 {
      assert Stops(script[1..][k - 1]);
      StopIndexAt(script[1..], k - 1);
    }
  }

  /**
   * Error propagation: an error after `k` truncated pages rejects the
   * whole listing with that error, whatever follows it.
   */
  lemma ErrorRejectsListing(script: seq<PageResult>, k: nat)
    requires k < |script| && script[k].Failure?
    requires forall j :: 0 <= j < k ==> script[j].Success? && script[j].value.isTruncated
    ensures Terminates(script) && ListAll(script) == Failure(script[k].error)
  {
    StopIndexAt(script, k);
  }

  /**
   * Concatenation: when every page but the last is truncated, the listing
   * resolves with both lists concatenated in page order.
   */
  lemma PagesConcatenate(script: seq<PageResult>)
    requires |script| > 0
    requires forall i :: 0 <= i < |script| ==> script[i].Success?
    requires forall i :: 0 <= i < |script| - 1 ==> script[i].value.isTruncated
    requires !script[|script| - 1].value.isTruncated
    ensures Terminates(script)
    ensures ListAll(script) == Success(Aggregate(PagesOf(script)))
  {
    StopIndexAt(script, |script| - 1);
    assert script[..|script|] == script;
  }

  /**
   * Empty result: one non-truncated page without entries resolves with two
   * empty lists, and nothing after that page is consumed.
   */
  lemma EmptyListing(script: seq<PageResult>)
    requires |script| > 0 && script[0].Success? && !script[0].value.isTruncated
    requires PrefixesOf(script[0].value) == [] && ContentsOf(script[0].value) == []
    ensures Terminates(script) && ListAll(script) == Success(Listing([], []))
  {
    StopIndexAt(script, 0);
    var p := script[0].value;
    assert PagesOf(script[..1]) == [p];
    assert [p][1..] == [];
    assert Aggregate([p]) == Listing([], []);
  }

  // ---------------------------------------------------------------------------
  // The listing loop
  // ---------------------------------------------------------------------------

  /**
   * Fetch pages until one is not truncated, appending each page's
   * `CommonPrefixes` and `Contents` to the collected listing. `issued` holds
   * the request sent for each reply consumed: the first is `params`, and each
   * next one carries the previous page's `NextContinuationToken` and is
   * otherwise unchanged.
   */
  method ListObjectsV2(params: ListRequest, script: seq<PageResult>)
    returns (result: Result<Listing, BackendError>, issued: seq<ListRequest>)
    requires Terminates(script)
    ensures result == ListAll(script)
    ensures |issued| == StopIndex(script) + 1 && issued[0] == params
    ensures forall i :: 1 <= i < |issued| ==>
              script[i - 1].Success? && script[i - 1].value.isTruncated &&
              issued[i] == params.(continuationToken := script[i - 1].value.nextContinuationToken)
  {
    var collected := Listing([], []);
    var request := params;
    var i := 0;
    issued := [];
    while true
      invariant 0 <= i <= StopIndex(script)
      invariant |issued| == i
      invariant request == if i == 0 then params
                           else params.(continuationToken := script[i - 1].value.nextContinuationToken)
      invariant i > 0 ==> issued[0] == params
      invariant forall j :: 1 <= j < i ==>
                  issued[j] == params.(continuationToken := script[j - 1].value.nextContinuationToken)
      invariant collected == Aggregate(PagesOf(script[..i]))
      decreases StopIndex(script) - i
    {
      issued := issued + [request];
      var response := script[i];
      if response.Failure? {
        assert Stops(script[i]);
        assert i == StopIndex(script);
        result := Failure(response.error);
        return;
      }
      var data := response.value;
      assert PagesOf(script[..i + 1]) == PagesOf(script[..i]) + [data];
      AggregateAppend(PagesOf(script[..i]), data);
      if data.commonPrefixes.Some? {
        collected := collected.(commonPrefixes := collected.commonPrefixes + data.commonPrefixes.value);
      }
      if data.contents.Some? {
        collected := collected.(contents := collected.contents + data.contents.value);
      }
      assert collected.commonPrefixes == Aggregate(PagesOf(script[..i])).commonPrefixes + PrefixesOf(data);
      assert collected.contents == Aggregate(PagesOf(script[..i])).contents + ContentsOf(data);
      assert collected == Aggregate(PagesOf(script[..i + 1]));
      if data.isTruncated {
        request := request.(continuationToken := data.nextContinuationToken);
        i := i + 1;
      } else {
        assert Stops(script[i]);
        assert i == StopIndex(script);
        result := Success(collected);
        return;
      }
    }
  }

  // ---------------------------------------------------------------------------
  // Bucket listing
  // ---------------------------------------------------------------------------

  /**
   * The bucket list: the reply's `Buckets` when present and an array, the
   * empty list otherwise; a rejected call stays rejected with its error.
   */
  function ListBuckets(reply: Result<BucketsReply, BackendError>): (r: Result<seq<Bucket>, BackendError>)
    ensures reply.Failure? <==> r.Failure?
    ensures reply.Failure? ==> r.error == reply.error
    ensures reply.Success? && reply.value.buckets.Some? && reply.value.buckets.value.BucketArray?
            ==> r == Success(reply.value.buckets.value.buckets)
    ensures reply.Success? && (reply.value.buckets.None? || reply.value.buckets.value.NotAnArray?)
            ==> r == Success([])
  {
    match reply
    case Failure(e) => Failure(e)
    case Success(data) =>
      match data.buckets
      case Some(BucketArray(bs)) => Success(bs)
      case _ => Success([])
  }

  // ---------------------------------------------------------------------------
  // The client object
  // ---------------------------------------------------------------------------

  /** A client: the bucket chosen for later calls and the listing delimiter. */
  class Client {
    var selectedBucket: Option<string>
    const delimiter: string := "/"

    /** A new client has no selected bucket. */
    constructor ()
      ensures selectedBucket == None
    {
      selectedBucket := None;
    }

    /** Remember `bucket` for later calls that pass a null bucket. */
    method SelectBucket(bucket: Option<string>)
      modifies this
      ensures selectedBucket == bucket
    {
      selectedBucket := bucket;
    }

    /** The bucket a call uses: the one given, or the selected one for null. */
    function BucketFor(bucket: Option<string>): (b: Option<string>)
      reads this
      ensures bucket.Some? ==> b == bucket
      ensures bucket.None? ==> b == selectedBucket
    {
      if bucket.None? then selectedBucket else bucket
    }

    /** The `getObject` parameters of a download: exactly the bucket and the key. */
    function Download(path: string, bucket: Option<string>): (r: GetObjectRequest)
      reads this
      ensures r.key == path
      ensures r.bucket == (if bucket.None? then selectedBucket else bucket)
    {
      GetObjectRequest(BucketFor(bucket), path)
    }

    /** The first request of a grouped listing: with the `/` delimiter. */
    function ListObjectsParams(path: string, bucket: Option<string>): (r: ListRequest)
      reads this
      ensures r.bucket == (if bucket.None? then selectedBucket else bucket)
      ensures r.delimiter == Some("/") && r.prefix == path && r.continuationToken.None?
    {
      ListRequest(BucketFor(bucket), Some(delimiter), path, None)
    }

    /** The first request of a flat search: without any delimiter. */
    function SearchByKeyParams(path: string, bucket: Option<string>): (r: ListRequest)
      reads this
      ensures r.bucket == (if bucket.None? then selectedBucket else bucket)
      ensures r.delimiter.None? && r.prefix == path && r.continuationToken.None?
    {
      ListRequest(BucketFor(bucket), None, path, None)
    }

    /**
     * A grouped listing of `path`: every request sent names the same bucket,
     * the `/` delimiter and the prefix `path`; each after the first carries
     * the previous page's continuation token.
     */
    method ListObjects(path: string, bucket: Option<string>, script: seq<PageResult>)
      returns (result: Result<Listing, BackendError>, issued: seq<ListRequest>)
      requires Terminates(script)
      ensures result == ListAll(script)
      ensures |issued| == StopIndex(script) + 1 && issued[0] == ListObjectsParams(path, bucket)
      ensures forall i :: 1 <= i < |issued| ==>
                script[i - 1].Success? && script[i - 1].value.isTruncated &&
                issued[i] == issued[0].(continuationToken := script[i - 1].value.nextContinuationToken)
      ensures forall r :: r in issued ==>
                r.bucket == BucketFor(bucket) && r.delimiter == Some("/") && r.prefix == path
    {
      result, issued := ListObjectsV2(ListObjectsParams(path, bucket), script);
    }

    /**
     * A flat search under `path`: every request sent names the same bucket,
     * the prefix `path` and no delimiter; each after the first carries the
     * previous page's continuation token.
     */
    method SearchByKey(path: string, bucket: Option<string>, script: seq<PageResult>)
      returns (result: Result<Listing, BackendError>, issued: seq<ListRequest>)
      requires Terminates(script)
      ensures result == ListAll(script)
      ensures |issued| == StopIndex(script) + 1 && issued[0] == SearchByKeyParams(path, bucket)
      ensures forall i :: 1 <= i < |issued| ==>
                script[i - 1].Success? && script[i - 1].value.isTruncated &&
                issued[i] == issued[0].(continuationToken := script[i - 1].value.nextContinuationToken)
      ensures forall r :: r in issued ==>
                r.bucket == BucketFor(bucket) && r.delimiter.None? && r.prefix == path
    {
      result, issued := ListObjectsV2(SearchByKeyParams(path, bucket), script);
    }
  }

  /** A bucket selected on a client is the one a later null-bucket call uses. */
  method SelectThenList(c: Client, selected: string, path: string)
    returns (list: ListRequest, search: ListRequest, download: GetObjectRequest)
    modifies c
    ensures list.bucket == Some(selected) && list.delimiter == Some("/") && list.prefix == path
    ensures search.bucket == Some(selected) && search.delimiter.None? && search.prefix == path
    ensures download == GetObjectRequest(Some(selected), path)
  {
    c.SelectBucket(Some(selected));
    list := c.ListObjectsParams(path, None);
    search := c.SearchByKeyParams(path, None);
    download := c.Download(path, None);
  }
}
