/**
 Cutting a reply into stream deltas: the longest pieces of at most a given number of bytes
 that end on character boundaries.
 */
module Chunking {
  import opened Basics
  import opened Utf8

  /** The last boundary at or before `end`. */
  function LastBoundary(text: seq<Byte>, end: nat): (r: nat)
    requires end <= |text|
    ensures r <= end && Boundary(text, r)
    ensures forall j :: r < j <= end ==> !Boundary(text, j)
  {
    if Boundary(text, end) then end else LastBoundary(text, end - 1)
  }

  function Min(a: nat, b: nat): (r: nat) {
    if a < b then a else b
  }

  /** The length of the first piece. */
  function FirstCut(text: seq<Byte>, limit: nat): (r: nat)
    ensures r <= limit && r <= |text| && Boundary(text, r)
  {
    LastBoundary(text, Min(|text|, limit))
  }

  lemma FirstCutBounds(text: seq<Byte>, limit: nat)
    requires Valid(text) && text != [] && limit >= 4
    ensures 0 < FirstCut(text, limit)
    ensures FirstCut(text, limit) == |text| || FirstCut(text, limit) >= limit - 3
    ensures Valid(text[..FirstCut(text, limit)]) && Valid(text[FirstCut(text, limit)..])
  {
    var end := Min(|text|, limit);
    BoundaryNear(text, end);
    CutAtBoundary(text, FirstCut(text, limit));
  }

  ghost function Pieces(text: seq<Byte>, limit: nat): (r: seq<seq<Byte>>)
    requires Valid(text) && limit >= 4
    decreases |text|
  {
    if text == [] then [] else
      FirstCutBounds(text, limit);
      var end := FirstCut(text, limit);
      [text[..end]] + Pieces(text[end..], limit)
  }

  ghost function Flatten(parts: seq<seq<Byte>>): (r: seq<Byte>) {
    if parts == [] then [] else parts[0] + Flatten(parts[1..])
  }

  /** A proper cutting of `text`: it is all there, and every piece is nonempty, valid and as long as
      a boundary allows. */
  ghost predicate Chunked(text: seq<Byte>, limit: nat, parts: seq<seq<Byte>>) {
    && Flatten(parts) == text
    && (forall i :: 0 <= i < |parts| ==> 0 < |parts[i]| <= limit && Valid(parts[i]))
    && (forall i :: 0 <= i < |parts| - 1 ==> |parts[i]| >= limit - 3)
  }

  lemma NothingChunked(limit: nat)
    ensures Chunked([], limit, [])
  {
  }

  lemma OnePieceMore(piece: seq<Byte>, text: seq<Byte>, limit: nat, rest: seq<seq<Byte>>)
    requires Chunked(text, limit, rest) && 0 < |piece| <= limit && Valid(piece)
    requires text == [] || |piece| >= limit - 3
    ensures Chunked(piece + text, limit, [piece] + rest)
  {
    hide Valid;
    var parts := [piece] + rest;
    assert parts[1..] == rest;
    if rest != [] {
      assert Flatten(rest) != [] by {
        assert |rest[0]| > 0;
      }
    }
  }

  lemma {:induction false} PiecesChunked(text: seq<Byte>, limit: nat)
    requires Valid(text) && limit >= 4
    ensures Chunked(text, limit, Pieces(text, limit))
    decreases |text|
  {
    hide Valid, FirstCut, Chunked;
    if text == [] {
      NothingChunked(limit);
    } else {
      FirstCutBounds(text, limit);
      var end := FirstCut(text, limit);
      PiecesChunked(text[end..], limit);
      OnePieceMore(text[..end], text[end..], limit, Pieces(text[end..], limit));
      assert text == text[..end] + text[end..];
    }
  }

  /** All pieces but the last are nearly full, so there are not many of them. */
  lemma {:induction false} FewPieces(text: seq<Byte>, limit: nat, parts: seq<seq<Byte>>)
    requires limit >= 4 && Chunked(text, limit, parts) && parts != []
    ensures (|parts| - 1) * (limit - 3) < |text|
    decreases |parts|
  {
    if |parts| > 1 {
      var rest := parts[1..];
      RestChunked(limit, parts);
      FewPieces(Flatten(rest), limit, rest);
      OneMore(|parts| - 1, limit - 3);
    }
  }

  lemma RestChunked(limit: nat, parts: seq<seq<Byte>>)
    requires |parts| > 1 && Chunked(Flatten(parts), limit, parts)
    ensures Chunked(Flatten(parts[1..]), limit, parts[1..])
    ensures |Flatten(parts)| >= limit - 3 + |Flatten(parts[1..])|
  {
  }

  lemma OneMore(n: int, k: int)
    ensures n * k == (n - 1) * k + k
  {
  }

  /** Steps back from the size limit to a character boundary. */
  method Cut(tail: seq<Byte>, limit: nat) returns (end: nat)
    ensures end == FirstCut(tail, limit)
  {
    end := Min(|tail|, limit);
    while !Boundary(tail, end)
      invariant end <= |tail| && LastBoundary(tail, end) == FirstCut(tail, limit)
      decreases end
    {
      end := end - 1;
    }
  }

  method Chunks(text: seq<Byte>, bytes: nat) returns (parts: seq<seq<Byte>>)
    requires Valid(text)
    ensures var limit := if bytes < 4 then 4 else bytes;
            && parts == Pieces(text, limit)
            && Chunked(text, limit, parts)
            && (parts != [] ==> (|parts| - 1) * (limit - 3) < |text|)
  {
    hide Valid, FirstCut, Chunked;
    var limit := if bytes < 4 then 4 else bytes;
    parts := [];
    var tail := text;
    while tail != []
      invariant Valid(tail)
      invariant parts + Pieces(tail, limit) == Pieces(text, limit)
      decreases |tail|
    {
      var end := Cut(tail, limit);
      FirstCutBounds(tail, limit);
      Regroup(parts, tail[..end], Pieces(tail[end..], limit));
      parts, tail := parts + [tail[..end]], tail[end..];
    }
    assert parts == parts + [] == Pieces(text, limit);
    PiecesChunked(text, limit);
    if parts != [] {
      FewPieces(text, limit, parts);
    }
  }
}
