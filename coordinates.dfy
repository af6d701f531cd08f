/** Reading a `gml:posList` into points. Every script splits the list's text into tokens,
    converts each with float() and pairs them up as (x, y). flurstueck.py and nutzung.py let
    the exception escape; ver.py and guby.py catch it and answer None. */
module Coordinates {
  import opened Nas

  /** One whitespace-separated token of a posList: a number float() accepts, or not. */
  datatype Token = Num(value: real) | NonNumeric

  predicate AllNumeric(tokens: seq<Token>) {
    forall i :: 0 <= i < |tokens| ==> tokens[i].Num?
  }

  /** The pairing comprehension `[(c[i], c[i + 1]) for i in range(0, len(c), 2)]` on a list
      whose length is even. */
  function Pairs(tokens: seq<Token>): (r: seq<Point>)
    requires AllNumeric(tokens) && |tokens| % 2 == 0
    ensures |r| == |tokens| / 2
    ensures forall k :: 0 <= k < |r| ==> r[k] == (tokens[2 * k].value, tokens[2 * k + 1].value)
  {
    if |tokens| == 0 then []
    else [(tokens[0].value, tokens[1].value)] + Pairs(tokens[2..])
  }

  /** extract_coordinates (flurstueck.py) and extract_polygon (nutzung.py): every token is
      converted first, so a non-numeric token raises ValueError whatever the length; an odd
      count then raises IndexError at the last pair. */
  function ExtractCoordinates(tokens: seq<Token>): (r: Result<seq<Point>>)
    ensures r.Ok? <==> AllNumeric(tokens) && |tokens| % 2 == 0
    ensures r == Err(ValueError) <==> !AllNumeric(tokens)
    ensures r == Err(IndexError) <==> AllNumeric(tokens) && |tokens| % 2 == 1
    ensures r.Ok? ==> |r.value| == |tokens| / 2
    ensures r.Ok? ==> forall k :: 0 <= k < |r.value| ==> r.value[k] == (tokens[2 * k].value, tokens[2 * k + 1].value)
  {
    if !AllNumeric(tokens) then Err(ValueError)
    else if |tokens| % 2 == 1 then Err(IndexError)
    else Ok(Pairs(tokens))
  }

  /** extract_polygon of ver.py and guby.py: the same pairing, with any exception turned into None. */
  function ExtractPolygonLenient(tokens: seq<Token>): (r: Option<seq<Point>>)
    ensures r.Some? <==> AllNumeric(tokens) && |tokens| % 2 == 0
    ensures r.Some? ==> ExtractCoordinates(tokens) == Ok(r.value)
  {
    match ExtractCoordinates(tokens)
    case Ok(points) => Some(points)
    case Err(_) => None
  }

  /** The tokens of several posLists one after the other. */
  function Concat(lists: seq<seq<Token>>): seq<Token> {
    if |lists| == 0 then [] else Concat(lists[..|lists| - 1]) + lists[|lists| - 1]
  }

  /** The posList text that lists `points` as x y x y ... */
  function Flatten(points: seq<Point>): (r: seq<Token>)
    ensures |r| == 2 * |points| && AllNumeric(r)
  {
    if |points| == 0 then [] else [Num(points[0].0), Num(points[0].1)] + Flatten(points[1..])
  }

  lemma {:induction false} FlattenAt(points: seq<Point>, k: nat)
    requires k < |points|
    ensures Flatten(points)[2 * k] == Num(points[k].0)
    ensures Flatten(points)[2 * k + 1] == Num(points[k].1)
  {
    if k > 0 {
      FlattenAt(points[1..], k - 1);
    }
  }

  lemma {:induction false} FlattenConcat(a: seq<Point>, b: seq<Point>)
    ensures Flatten(a + b) == Flatten(a) + Flatten(b)
  {
    if |a| > 0 {
      assert (a + b)[1..] == a[1..] + b;
      FlattenConcat(a[1..], b);
    } else {
      assert a + b == b;
    }
  }

  /** Reading back the posList of some points gives exactly those points. */
  lemma ExtractFlattenRoundTrip(points: seq<Point>)
    ensures ExtractCoordinates(Flatten(points)) == Ok(points)
  {
    var r := ExtractCoordinates(Flatten(points));
    forall k | 0 <= k < |points|
      ensures r.value[k] == points[k]
    {
      FlattenAt(points, k);
    }
    assert r.value == points;
  }

  /** Conversely, a posList that reads without error lists exactly the points it yields. */
  lemma FlattenExtractRoundTrip(tokens: seq<Token>)
    requires ExtractCoordinates(tokens).Ok?
    ensures Flatten(ExtractCoordinates(tokens).value) == tokens
  {
    var points := ExtractCoordinates(tokens).value;
    forall i | 0 <= i < |tokens|
      ensures Flatten(points)[i] == tokens[i]
    {
      FlattenAt(points, i / 2);
      assert i == 2 * (i / 2) || i == 2 * (i / 2) + 1;
    }
  }

  /** Every posList reads without error. */
  predicate AllReadable(posLists: seq<seq<Token>>) {
    forall i :: 0 <= i < |posLists| ==> ExtractCoordinates(posLists[i]).Ok?
  }

  /** The points of all posLists, in order, read strictly (flurstueck.py and nutzung.py): the
      first list that does not read raises its exception. */
  function ReadPosLists(posLists: seq<seq<Token>>): (r: Result<seq<Point>>)
    ensures r.Ok? <==> AllReadable(posLists)
    ensures r.Ok? ==> Flatten(r.value) == Concat(posLists)
    ensures r.Err? ==> exists i :: 0 <= i < |posLists| && ExtractCoordinates(posLists[i]) == Err(r.error)
                                   && AllReadable(posLists[..i])
  {
    if |posLists| == 0 then Ok([])
    else
      var n := |posLists| - 1;
      ReadableSnoc(posLists);
      match ReadPosLists(posLists[..n])
      case Err(e) => Err(e)
      case Ok(points) =>
        match ExtractCoordinates(posLists[n])
        case Err(e) => Err(e)
        case Ok(more) =>
          FlattenConcat(points, more);
          FlattenExtractRoundTrip(posLists[n]);
          Ok(points + more)
  }

  /** Once the posLists before the last raise, so does the whole list, with the same error. */
  lemma ReadPosListsErrSnoc(posLists: seq<seq<Token>>)
    requires |posLists| > 0 && ReadPosLists(posLists[..|posLists| - 1]).Err?
    ensures ReadPosLists(posLists) == ReadPosLists(posLists[..|posLists| - 1])
  {
  }

  /** Readability of a non-empty list of posLists splits into that of all but the last and the last. */
  lemma ReadableSnoc(posLists: seq<seq<Token>>)
    requires |posLists| > 0
    ensures AllReadable(posLists) <==>
      AllReadable(posLists[..|posLists| - 1]) && ExtractCoordinates(posLists[|posLists| - 1]).Ok?
    ensures Concat(posLists) == Concat(posLists[..|posLists| - 1]) + posLists[|posLists| - 1]
    ensures forall i :: 0 <= i < |posLists| - 1 ==> posLists[..|posLists| - 1][i] == posLists[i]
  {
    var n := |posLists| - 1;
    assert forall i :: 0 <= i < n ==> posLists[..n][i] == posLists[i];
  }
}
