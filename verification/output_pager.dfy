/** Paging through a run output without splitting a code point (`boundedUtf8Page`). */
module OutputPager {
  import CanonicalJson
  import opened Utf8
  import opened TextDecoding
  import opened LossyDecoding

  function Min(a: int, b: int): int {
    if a <= b then a else b
  }

  /** An offset at which a code point may start: the end of the bytes, or a byte that does not continue one. */
  predicate IsBoundary(bytes: seq<Byte>, p: int) {
    p == |bytes| || (0 <= p < |bytes| && !IsContinuation(bytes[p]))
  }

  /** Where the cut lies: the last boundary the limit allows, or the first one past it. */
  ghost predicate IsPageEnd(bytes: seq<Byte>, offset: nat, maxBytes: nat, end: nat) {
    var limit := Min(|bytes|, offset + maxBytes);
    if exists p | offset < p <= limit :: IsBoundary(bytes, p) then
      && offset < end <= limit
      && IsBoundary(bytes, end)
      && forall p | end < p <= limit :: !IsBoundary(bytes, p)
    else
      && limit <= end <= |bytes|
      && IsBoundary(bytes, end)
      && forall p | limit <= p < end :: !IsBoundary(bytes, p)
  }

  /**
   The page's text, None where the source throws: it does so exactly when some part of the page
   that is no code point does not have as many bytes as its replacement character.
   */
  method BoundedUtf8Page(bytes: seq<Byte>, offset: nat, maxBytes: nat)
      returns (text: CanonicalJson.Option<CanonicalJson.Text>, endOffset: nat, truncated: bool)
    requires offset <= |bytes|
    ensures offset < |bytes| ==> IsPageEnd(bytes, offset, maxBytes, endOffset)
    ensures offset == |bytes| ==> endOffset == offset
    ensures truncated == (endOffset < |bytes|)
    ensures offset <= endOffset <= |bytes|
    ensures text.Some? <==> GapsAreThree(bytes[offset..endOffset])
    ensures text.Some? ==> text.value == TextOf(Lossy(bytes[offset..endOffset]))
  {
    var limit := Min(|bytes|, offset + maxBytes);
    endOffset := limit;
    while endOffset > offset && endOffset < |bytes| && IsContinuation(bytes[endOffset])
      invariant offset <= endOffset <= limit
      invariant forall p | endOffset < p <= limit :: !IsBoundary(bytes, p)
    {
      endOffset := endOffset - 1;
    }
    if endOffset == offset && endOffset < |bytes| {
      endOffset := Min(|bytes|, offset + maxBytes);
      while endOffset < |bytes| && IsContinuation(bytes[endOffset])
        invariant limit <= endOffset <= |bytes|
        invariant forall p | limit <= p < endOffset :: !IsBoundary(bytes, p)
      {
        endOffset := endOffset + 1;
      }
    } else if offset < |bytes| {
      assert IsBoundary(bytes, endOffset);
    }
    truncated := endOffset < |bytes|;
    var page := bytes[offset..endOffset];
    var decoded := TextOf(Lossy(page));
    TextOfIsWellFormed(Lossy(page));
    LossyLength(page);
    text := if |Encode(Scalars(decoded))| == endOffset - offset then CanonicalJson.Some(decoded)
        else CanonicalJson.None;
  }

  /** A page can pass and still not be valid UTF-8: three bytes of a code point of four. */
  lemma InvalidPagePasses()
    ensures var page: seq<Byte> := [0xF0, 0x90, 0x80];
            GapsAreThree(page) && Lossy(page) == [REPLACEMENT] && forall cs :: Encode(cs) != page
  {
    var page: seq<Byte> := [0xF0, 0x90, 0x80];
    assert Allowed(page, 1) && Allowed(page, 2);
    assert Run(page, 3, 3) == 3 && Run(page, 2, 3) == 3;
    assert FirstPart(page) == (3, false);
    assert page[3..] == [];
    assert Lossy([]) == [];
    forall cs
      ensures Encode(cs) != page
    {
      EncodingHasNoGaps(cs);
      assert [REPLACEMENT][1..] == [] && Encode([]) == [];
      assert Encode([REPLACEMENT])[0] == EncodeScalar(REPLACEMENT)[0] == 0xEF;
    }
  }

  lemma PageEndIsUnique(bytes: seq<Byte>, offset: nat, maxBytes: nat, a: nat, b: nat)
    requires IsPageEnd(bytes, offset, maxBytes, a) && IsPageEnd(bytes, offset, maxBytes, b)
    ensures a == b
  {
  }

  // Valid UTF-8: the bytes are the encoding of the code points `cs`.

  /** The offset at which the `i`-th code point starts. */
  function Start(cs: seq<Scalar>, i: nat): nat
    requires i <= |cs|
  {
    |Encode(cs[..i])|
  }

  lemma SplitAt(cs: seq<Scalar>, i: nat)
    requires i <= |cs|
    ensures Encode(cs) == Encode(cs[..i]) + Encode(cs[i..])
    ensures Start(cs, i) <= |Encode(cs)|
    ensures Encode(cs)[Start(cs, i)..] == Encode(cs[i..])
  {
    assert cs == cs[..i] + cs[i..];
    EncodeConcat(cs[..i], cs[i..]);
  }

  lemma StartStep(cs: seq<Scalar>, i: nat)
    requires i < |cs|
    ensures Start(cs, i + 1) == Start(cs, i) + |EncodeScalar(cs[i])|
    ensures Start(cs, i + 1) <= |Encode(cs)|
    ensures Encode(cs)[Start(cs, i)..Start(cs, i + 1)] == EncodeScalar(cs[i])
    ensures forall p | Start(cs, i) < p < Start(cs, i + 1) :: !IsBoundary(Encode(cs), p)
    ensures IsBoundary(Encode(cs), Start(cs, i))
  {
    hide EncodeScalar;
    var e := EncodeScalar(cs[i]);
    assert cs[..i + 1] == cs[..i] + [cs[i]];
    EncodeConcat(cs[..i], [cs[i]]);
    assert [cs[i]][1..] == [];
    assert Encode([cs[i]]) == e + [];
    SplitAt(cs, i);
    SplitAt(cs, i + 1);
    assert Encode(cs) == Encode(cs[..i]) + e + Encode(cs[i + 1..]);
    assert forall k | 0 <= k < |e| :: Encode(cs)[Start(cs, i) + k] == e[k];
  }

  lemma {:induction false} StartIsMonotone(cs: seq<Scalar>, i: nat, j: nat)
    requires i <= j <= |cs|
    ensures Start(cs, i) + (j - i) <= Start(cs, j)
    decreases j - i
  {
    if i < j {
      StartStep(cs, i);
      StartIsMonotone(cs, i + 1, j);
    }
  }

  /** In valid UTF-8 the boundaries are exactly the starts of code points, and the end. */
  lemma {:induction false} BoundariesAreStarts(cs: seq<Scalar>, p: nat, i: nat)
    requires i <= |cs| && Start(cs, i) <= p <= |Encode(cs)| && IsBoundary(Encode(cs), p)
    ensures exists j | i <= j <= |cs| :: p == Start(cs, j)
    decreases |cs| - i
  {
    assert cs[..|cs|] == cs;
    if i == |cs| || p == Start(cs, i) {
      assert p == Start(cs, i);
    } else {
      StartStep(cs, i);
      BoundariesAreStarts(cs, p, i + 1);
    }
  }

  lemma StartsAreBoundaries(cs: seq<Scalar>, j: nat)
    requires j <= |cs|
    ensures IsBoundary(Encode(cs), Start(cs, j))
  {
    hide EncodeScalar, Encode, IsContinuation;
    if j < |cs| {
      StartStep(cs, j);
    } else {
      assert cs[..j] == cs;
    }
  }

  /**
   A page that starts at a code point ends at one, makes progress, exceeds the limit only when
   it is exactly one code point, and is as long as the limit allows.
   */
  lemma PageIsWholeCodePoints(cs: seq<Scalar>, i: nat, maxBytes: nat, end: nat) returns (j: nat)
    requires i < |cs| && maxBytes > 0
    requires IsPageEnd(Encode(cs), Start(cs, i), maxBytes, end)
    ensures i < j <= |cs| && end == Start(cs, j)
    ensures Start(cs, i) < end <= |Encode(cs)|
    ensures end - Start(cs, i) <= maxBytes || j == i + 1
    ensures j < |cs| ==> Start(cs, j + 1) - Start(cs, i) > maxBytes
    ensures Encode(cs)[Start(cs, i)..end] == Encode(cs[i..j])
  {
    hide Encode, EncodeScalar;
    var bytes, offset := Encode(cs), Start(cs, i);
    var limit := Min(|bytes|, offset + maxBytes);
    StartStep(cs, i);
    var next := Start(cs, i + 1);
    StartsAreBoundaries(cs, i + 1);
    BoundariesAreStarts(cs, end, i);
    j :| i <= j <= |cs| && end == Start(cs, j);
    if next <= limit {
      assert IsBoundary(bytes, next);
    } else {
      assert limit == offset + maxBytes;
      assert forall p | offset < p < next :: !IsBoundary(bytes, p);
      StartIsMonotone(cs, i + 1, if j > i + 1 then j else i + 1);
    }
    if j < |cs| {
      StartStep(cs, j);
      StartsAreBoundaries(cs, j + 1);
    }
    Slice(cs, i, j);
  }

  lemma Slice(cs: seq<Scalar>, i: nat, j: nat)
    requires i <= j <= |cs|
    ensures Start(cs, i) <= Start(cs, j) <= |Encode(cs)|
    ensures Encode(cs)[Start(cs, i)..Start(cs, j)] == Encode(cs[i..j])
  {
    hide Encode;
    SplitAt(cs, j);
    StartIsMonotone(cs, i, j);
    assert cs[..j] == cs[..i] + cs[i..j];
    EncodeConcat(cs[..i], cs[i..j]);
  }

  /** What one more page adds. */
  lemma NextPage(cs: seq<Scalar>, i: nat, maxBytes: nat, end: nat) returns (j: nat)
    requires i <= |cs| && Start(cs, i) < |Encode(cs)| && maxBytes > 0
    requires IsPageEnd(Encode(cs), Start(cs, i), maxBytes, end)
    ensures i < j <= |cs| && end == Start(cs, j) && Start(cs, i) < end <= |Encode(cs)|
    ensures Encode(cs)[Start(cs, i)..end] == Encode(cs[i..j])
    ensures |Encode(cs[i..j])| == end - Start(cs, i)
    ensures |cs[i..j]| == 1 || 0 < |Encode(cs[i..j])| <= maxBytes
  {
    assert cs[..|cs|] == cs;
    hide Encode, IsPageEnd;
    j := PageIsWholeCodePoints(cs, i, maxBytes, end);
  }

  /** The pages a reader collects: `pages[k]` are code points, and each page starts where the last ended. */
  function Flatten(pages: seq<seq<Scalar>>): seq<Scalar> {
    if pages == [] then [] else Flatten(pages[..|pages| - 1]) + pages[|pages| - 1]
  }

  /** Pages that make up `cs`, each within the limit or a single code point. */
  predicate PagesOf(pages: seq<seq<Scalar>>, cs: seq<Scalar>, maxBytes: nat) {
    && Flatten(pages) == cs
    && forall k | 0 <= k < |pages| :: |pages[k]| == 1 || 0 < |Encode(pages[k])| <= maxBytes
  }

  lemma OnePageMore(pages: seq<seq<Scalar>>, cs: seq<Scalar>, page: seq<Scalar>, maxBytes: nat)
    requires PagesOf(pages, cs, maxBytes) && (|page| == 1 || 0 < |Encode(page)| <= maxBytes)
    ensures PagesOf(pages + [page], cs + page, maxBytes)
  {
    hide Encode;
    assert (pages + [page])[..|pages|] == pages;
  }

  /**
   Reading from offset 0 by `nextOffset` returns the whole output as text, in whole code points,
   and is never refused.
   */
  method ReadAll(bytes: seq<Byte>, maxBytes: nat, ghost cs: seq<Scalar>)
      returns (content: CanonicalJson.Text, read: seq<Byte>, ghost pages: seq<seq<Scalar>>)
    requires bytes == Encode(cs) && maxBytes > 0
    ensures content == TextOf(cs) && read == bytes
    ensures PagesOf(pages, cs, maxBytes)
  {
    ReadFromStart(cs, maxBytes);
    hide Encode, IsPageEnd, IsBoundary, PagesOf, Start, GapsAreThree, Lossy, TextOf;
    content, read, pages := [], [], [];
    var offset := 0;
    ghost var i := 0;
    var more := bytes != [];
    while more
      invariant i <= |cs| && offset == Start(cs, i) && offset <= |bytes|
      invariant more <==> offset < |bytes|
      invariant content == TextOf(cs[..i]) && read == bytes[..offset]
      invariant PagesOf(pages, cs[..i], maxBytes)
      decreases |bytes| - offset
    {
      var text, endOffset, truncated := BoundedUtf8Page(bytes, offset, maxBytes);
      ghost var j := NextPage(cs, i, maxBytes, endOffset);
      ghost var page := cs[i..j];
      EncodingHasNoGaps(page);
      assert cs[..j] == cs[..i] + page;
      OnePageMore(pages, cs[..i], page, maxBytes);
      TextOfConcat(cs[..i], page);
      assert bytes[..endOffset] == bytes[..offset] + bytes[offset..endOffset];
      content := content + text.value;
      read := read + bytes[offset..endOffset];
      pages := pages + [page];
      offset, i, more := endOffset, j, truncated;
    }
    ReadToEnd(cs, i);
    assert cs[..i] == cs && bytes[..offset] == bytes;
  }

  lemma ReadFromStart(cs: seq<Scalar>, maxBytes: nat)
    ensures Start(cs, 0) == 0 && PagesOf([], cs[..0], maxBytes) && TextOf(cs[..0]) == []
  {
  }

  lemma ReadToEnd(cs: seq<Scalar>, i: nat)
    requires i <= |cs| && Start(cs, i) >= |Encode(cs)|
    ensures i == |cs| && Start(cs, i) == |Encode(cs)|
  {
    hide Encode;
    assert cs[..|cs|] == cs;
    SplitAt(cs, i);
    StartIsMonotone(cs, i, |cs|);
  }

  /** A page of valid UTF-8 decodes to a text that encodes back to the page: it is never refused. */
  lemma PageIsRenderable(cs: seq<Scalar>, i: nat, maxBytes: nat, end: nat) returns (text: CanonicalJson.Text)
    requires i < |cs| && maxBytes > 0
    requires IsPageEnd(Encode(cs), Start(cs, i), maxBytes, end)
    ensures Start(cs, i) <= end <= |Encode(cs)|
    ensures GapsAreThree(Encode(cs)[Start(cs, i)..end]) && text == TextOf(Lossy(Encode(cs)[Start(cs, i)..end]))
    ensures DecodeUtf8(Encode(cs)[Start(cs, i)..end]) == CanonicalJson.Some(text)
    ensures CanonicalJson.WellFormed(text) && Encode(Scalars(text)) == Encode(cs)[Start(cs, i)..end]
  {
    hide Encode, IsPageEnd, DecodeUtf8, TextOf, GapsAreThree, Lossy;
    var j := PageIsWholeCodePoints(cs, i, maxBytes, end);
    EncodedDecodes(cs[i..j]);
    DecodedReencodes(Encode(cs[i..j]));
    text := DecodeUtf8(Encode(cs[i..j])).value;
    EncodingHasNoGaps(cs[i..j]);
    TextOfIsWellFormed(cs[i..j]);
    EncodeIsInjective(Scalars(text), cs[i..j]);
    ScalarsIsInjective(text, TextOf(cs[i..j]));
  }
}
