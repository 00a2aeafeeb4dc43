/**
 * The remote search component: normalisation of the records returned by the
 * product endpoint, and the `loading`/`results` state the fetch handler steps through.
 */
module Remote {
  import opened Products

  /** A record as the endpoint returns it: `thumbnail` and `images` may be missing. */
  datatype RawRecord = RawRecord(
    id: int,
    title: string,
    description: string,
    price: real,
    thumbnail: Option<string>,
    images: Option<seq<string>>)

  /**
   * How the request ended. `Success(None)` is a parsed body without a `products`
   * list; `Failure` is any transport or parse error.
   */
  datatype FetchOutcome = Success(products: Option<seq<RawRecord>>) | Failure

  /** JavaScript truthiness of an optional string: present and non-empty. */
  predicate Truthy(s: Option<string>)
  {
    s.Some? && s.value != ""
  }

  /** `a || b` on optional strings: `a` when truthy, otherwise `b` whatever it is. */
  function Or(a: Option<string>, b: Option<string>): Option<string>
  {
    if Truthy(a) then a else b
  }

  /** `images?.[0]`: the first image, or None when the list is missing or empty. */
  function FirstImage(images: Option<seq<string>>): Option<string>
  {
    if images.Some? && |images.value| > 0 then Some(images.value[0]) else None
  }

  /**
   * The thumbnail a record resolves to: its own thumbnail when present and non-empty,
   * else the first image when there is one, else none.
   */
  function ResolveThumbnail(r: RawRecord): (t: Option<string>)
    ensures Truthy(r.thumbnail) ==> t == r.thumbnail
    ensures !Truthy(r.thumbnail) && r.images.Some? && |r.images.value| > 0 ==> t == Some(r.images.value[0])
    ensures !Truthy(r.thumbnail) && (r.images.None? || r.images.value == []) ==> t == None
  {
    Or(r.thumbnail, FirstImage(r.images))
  }

  /** One record in the local product shape: identity, text and price copied unchanged. */
  function Normalise(r: RawRecord): (p: Product)
    ensures p.id == r.id && p.title == r.title && p.description == r.description && p.price == r.price
    ensures p.thumbnail == ResolveThumbnail(r)
  {
    Product(r.id, r.title, r.description, r.price, ResolveThumbnail(r))
  }

  /** Every record normalised, one product per record, in the same order. */
  function NormaliseAll(rs: seq<RawRecord>): (ps: seq<Product>)
    ensures |ps| == |rs|
    ensures forall i | 0 <= i < |rs| :: ps[i] == Normalise(rs[i])
  {
    if rs == [] then [] else [Normalise(rs[0])] + NormaliseAll(rs[1..])
  }

  /**
   * A record with no thumbnail and images ["u1"] normalises to thumbnail "u1";
   * an empty thumbnail falls through to the first image in the same way.
   */
  lemma FirstImageFallback(r: RawRecord)
    requires r.thumbnail == None || r.thumbnail == Some("")
    requires r.images == Some(["u1"])
    ensures Normalise(r).thumbnail == Some("u1")
  {
  }

  /** The results the handler publishes for an outcome. */
  function ResultsFor(outcome: FetchOutcome): (ps: seq<Product>)
    ensures outcome.Failure? ==> ps == []
    ensures outcome == Success(None) ==> ps == []
    ensures outcome.Success? && outcome.products.Some? ==>
      |ps| == |outcome.products.value| &&
      forall i | 0 <= i < |ps| :: ps[i] == Normalise(outcome.products.value[i])
  {
    match outcome
    case Failure => []
    case Success(products) =>
      match products
      case None => []
      case Some(rs) => NormaliseAll(rs)
  }

  /** The phases of the remote search, as visible to readers of its state. */
  datatype Phase = Idle | Loading | Loaded

  class RemoteProducts {
    /** None until a fetch has completed ("not yet fetched" differs from "fetched, empty"). */
    var results: Option<seq<Product>>
    var loading: bool

    /** The phase the state shows: loading wins, otherwise loaded once results exist. */
    function CurrentPhase(): Phase
      reads this
    {
      if loading then Loading else if results.Some? then Loaded else Idle
    }

    constructor ()
      ensures results == None && !loading
      ensures CurrentPhase() == Idle
    {
      results := None;
      loading := false;
    }

    /** The handler's first step, before the request is awaited: raise the loading flag. */
    method BeginFetch()
      modifies this
      ensures loading && results == old(results)
      ensures CurrentPhase() == Loading
    {
      loading := true;
    }

    /**
     * Completion of the request, whatever its outcome: publish the normalised records
     * (or the empty list on failure or a body without products), then drop the flag.
     */
    method FinishFetch(outcome: FetchOutcome)
      modifies this
      ensures !loading
      ensures results == Some(ResultsFor(outcome))
      ensures outcome.Failure? ==> results == Some([])
      ensures CurrentPhase() == Loaded
    {
      var products: seq<Product>;
      match outcome {
        case Failure =>
          products := [];
        case Success(records) =>
          products := if records.Some? then NormaliseAll(records.value) else [];
      }
      results := Some(products);
      loading := false;
    }

    /** One whole run of the handler with the request's outcome given. */
    method FetchFromDummy(outcome: FetchOutcome)
      modifies this
      ensures !loading && results == Some(ResultsFor(outcome))
      ensures CurrentPhase() == Loaded
    {
      BeginFetch();
      FinishFetch(outcome);
    }

    /**
     * Two requests started before either completes: nothing guards against the second
     * start, the first completion already drops the flag, and the last completion
     * decides the results.
     */
    method OverlappingFetches(first: FetchOutcome, second: FetchOutcome)
      modifies this
      ensures !loading
      ensures results == Some(ResultsFor(second))
    {
      BeginFetch();
      BeginFetch();
      FinishFetch(first);
      assert !loading && results == Some(ResultsFor(first));
      FinishFetch(second);
    }

  }
}
