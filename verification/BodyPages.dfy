/**
 * Pages of a document body: offsets in UTF-16 code units, a page bound in UTF-8 bytes, never a split
 * character, and a page that ends just after a line where one ends near its cut.
 */
module BodyPages {
  import opened Records

  type Unit = u: nat | u < 0x10000

  const LINE_WINDOW: nat := 4096
  const NEWLINE: Unit := 10

  predicate HighSurrogate(u: Unit) {
    0xD800 <= u <= 0xDBFF
  }

  predicate LowSurrogate(u: Unit) {
    0xDC00 <= u <= 0xDFFF
  }

  /** An offset between the two halves of a surrogate pair. */
  predicate InsidePair(body: seq<Unit>, offset: nat) {
    0 < offset < |body| && LowSurrogate(body[offset]) && HighSurrogate(body[offset - 1])
  }

  /** The character at an offset: a surrogate pair's code point, or the code unit as it is. */
  function CodePointAt(body: seq<Unit>, offset: nat): (code: nat)
    requires offset < |body|
    ensures code >= 0x10000 <==> InsidePair(body, offset + 1)
  {
    if offset + 1 < |body| && HighSurrogate(body[offset]) && LowSurrogate(body[offset + 1])
    then 0x10000 + (body[offset] as int - 0xD800) * 0x400 + (body[offset + 1] as int - 0xDC00)
    else body[offset]
  }

  function Width(code: nat): nat {
    if code < 0x80 then 1 else if code < 0x800 then 2 else if code < 0x10000 then 3 else 4
  }

  function Units(code: nat): nat {
    if code >= 0x10000 then 2 else 1
  }

  /** The size in UTF-8; a lone surrogate is encoded as the three bytes of the replacement character. */
  function Utf8Size(body: seq<Unit>): nat {
    if body == [] then 0
    else
      var code := CodePointAt(body, 0);
      Width(code) + Utf8Size(body[Units(code)..])
  }

  /** An offset that splits no character. */
  predicate Boundary(body: seq<Unit>, offset: nat) {
    offset <= |body| && !InsidePair(body, offset)
  }

  // ---- sizes of adjoining pieces ----

  lemma {:induction false} SizesAdd(body: seq<Unit>, middle: nat)
    requires Boundary(body, middle)
    ensures Utf8Size(body) == Utf8Size(body[..middle]) + Utf8Size(body[middle..])
    decreases |body|
  {
    if middle == 0 {
      assert body[0..] == body;
    } else {
      var n := Units(CodePointAt(body, 0));
      assert n <= middle;
      assert CodePointAt(body[..middle], 0) == CodePointAt(body, 0);
      assert body[n..][..middle - n] == body[..middle][n..];
      assert body[n..][middle - n..] == body[middle..];
      SizesAdd(body[n..], middle - n);
    }
  }

  lemma SlicesOfSlice(body: seq<Unit>, from: nat, middle: nat, to: nat)
    requires from <= middle <= to <= |body|
    ensures body[from..to][..middle - from] == body[from..middle] && body[from..to][middle - from..] == body[middle..to]
    ensures Boundary(body, middle) ==> Boundary(body[from..to], middle - from)
  {
    hide Utf8Size;
  }

  lemma PieceAdds(body: seq<Unit>, from: nat, middle: nat, to: nat)
    requires from <= middle <= to <= |body| && Boundary(body, from) && Boundary(body, middle)
    ensures Utf8Size(body[from..to]) == Utf8Size(body[from..middle]) + Utf8Size(body[middle..to])
  {
    hide Utf8Size, Boundary;
    SlicesOfSlice(body, from, middle, to);
    SizesAdd(body[from..to], middle - from);
  }

  lemma CharacterSize(body: seq<Unit>, offset: nat)
    requires offset < |body|
    ensures
      var code := CodePointAt(body, offset);
      offset + Units(code) <= |body| && Utf8Size(body[offset..offset + Units(code)]) == Width(code)
  {
    var code := CodePointAt(body, offset);
    var piece := body[offset..offset + Units(code)];
    assert CodePointAt(piece, 0) == code;
    assert piece[Units(code)..] == [];
  }

  lemma NextBoundary(body: seq<Unit>, offset: nat)
    requires Boundary(body, offset) && offset < |body|
    ensures Boundary(body, offset + Units(CodePointAt(body, offset)))
  {
  }

  // ---- where a page ends ----

  /** The offset after the last newline before `end`, or 0. */
  function AfterNewline(body: seq<Unit>, end: nat): (r: nat)
    requires end <= |body|
    ensures r <= end
    ensures r > 0 ==> body[r - 1] == NEWLINE
    ensures forall k :: r <= k < end ==> body[k] != NEWLINE
  {
    if end == 0 then 0 else if body[end - 1] == NEWLINE then end else AfterNewline(body, end - 1)
  }

  /** The furthest a page from `offset` may reach: every character that fits, and one even when it does not. */
  predicate ReachesTo(body: seq<Unit>, offset: nat, maxBytes: nat, cut: nat) {
    && offset <= cut <= |body| && Boundary(body, cut)
    && (offset < |body| ==> offset < cut)
    && (Utf8Size(body[offset..cut]) <= maxBytes
         || (offset < |body| && cut == offset + Units(CodePointAt(body, offset))))
    && (cut < |body| ==> maxBytes < Utf8Size(body[offset..cut]) + Width(CodePointAt(body, cut)))
  }

  lemma ReachIsUnique(body: seq<Unit>, offset: nat, maxBytes: nat, cut: nat, other: nat)
    requires Boundary(body, offset) && ReachesTo(body, offset, maxBytes, cut)
    requires ReachesTo(body, offset, maxBytes, other)
    ensures cut == other
  {
    if cut < other {
      CutIsShort(body, offset, maxBytes, cut, other);
    } else if other < cut {
      CutIsShort(body, offset, maxBytes, other, cut);
    }
  }

  lemma CutIsShort(body: seq<Unit>, offset: nat, maxBytes: nat, cut: nat, other: nat)
    requires Boundary(body, offset) && ReachesTo(body, offset, maxBytes, cut)
    requires ReachesTo(body, offset, maxBytes, other)
    ensures other <= cut
  {
    if cut < other {
      var n := Units(CodePointAt(body, cut));
      NextBoundary(body, cut);
      PieceAdds(body, offset, cut, other);
      PieceAdds(body, cut, cut + n, other);
      CharacterSize(body, cut);
    }
  }

  /** Moved back to the end of a line that ends within the window before the cut. */
  function Trimmed(body: seq<Unit>, offset: nat, cut: nat): nat
    requires cut <= |body|
  {
    if cut < |body| && offset < AfterNewline(body, cut) && cut - AfterNewline(body, cut) <= LINE_WINDOW
    then AfterNewline(body, cut) else cut
  }

  predicate EndsAt(body: seq<Unit>, offset: nat, maxBytes: nat, end: nat) {
    exists cut :: 0 <= cut <= |body| && ReachesTo(body, offset, maxBytes, cut) && end == Trimmed(body, offset, cut)
  }

  method LastIndexOfNewline(body: seq<Unit>, end: nat) returns (after: nat)
    requires end <= |body|
    ensures after == AfterNewline(body, end)
  {
    after := end;
    while after > 0 && body[after - 1] != NEWLINE
      invariant after <= end && AfterNewline(body, after) == AfterNewline(body, end)
    {
      after := after - 1;
    }
  }

  method PageEnd(body: seq<Unit>, offset: nat, maxBytes: nat) returns (end: nat)
    requires Boundary(body, offset)
    ensures EndsAt(body, offset, maxBytes, end)
  {
    var bytes := 0;
    end := offset;
    while end < |body|
      invariant offset <= end <= |body| && Boundary(body, end)
      invariant bytes == Utf8Size(body[offset..end]) <= maxBytes
    {
      var code := CodePointAt(body, end);
      CharacterSize(body, end);
      NextBoundary(body, end);
      if bytes + Width(code) > maxBytes {
        break;
      }
      PieceAdds(body, offset, end, end + Units(code));
      bytes := bytes + Width(code);
      end := end + Units(code);
    }
    if end == offset && end < |body| {
      CharacterSize(body, end);
      NextBoundary(body, end);
      end := end + Units(CodePointAt(body, end));
      if end < |body| {
        WidthIsPositive();
      }
    }
    assert ReachesTo(body, offset, maxBytes, end);
    if end < |body| {
      var newline := LastIndexOfNewline(body, end);
      if newline > offset && end - newline <= LINE_WINDOW {
        end := newline;
      }
    }
  }

  lemma WidthIsPositive()
    ensures forall code: nat :: Width(code) >= 1
  {
  }

  lemma TrimmedIsSound(body: seq<Unit>, offset: nat, maxBytes: nat, cut: nat)
    requires Boundary(body, offset) && ReachesTo(body, offset, maxBytes, cut)
    ensures
      var end := Trimmed(body, offset, cut);
      && Boundary(body, end) && offset <= end <= cut && (offset < |body| ==> offset < end)
      && (Utf8Size(body[offset..end]) <= maxBytes
           || (offset < |body| && end == offset + Units(CodePointAt(body, offset))))
  {
    hide Utf8Size;
    var end := Trimmed(body, offset, cut);
    if end < cut {
      assert body[end - 1] == NEWLINE && !HighSurrogate(NEWLINE) && Boundary(body, end);
      PieceAdds(body, offset, end, cut);
      if cut == offset + Units(CodePointAt(body, offset)) {
        assert false;
      }
    }
  }

  /** A page ends on a boundary, after its start, and fits its bound unless it is a single character. */
  lemma PageIsSound(body: seq<Unit>, offset: nat, maxBytes: nat, end: nat)
    requires Boundary(body, offset) && EndsAt(body, offset, maxBytes, end)
    ensures Boundary(body, end) && offset <= end && (offset < |body| ==> offset < end)
    ensures Utf8Size(body[offset..end]) <= maxBytes
      || (offset < |body| && end == offset + Units(CodePointAt(body, offset)))
  {
    hide Utf8Size, ReachesTo, Trimmed;
    var cut :| 0 <= cut <= |body| && ReachesTo(body, offset, maxBytes, cut) && end == Trimmed(body, offset, cut);
    TrimmedIsSound(body, offset, maxBytes, cut);
  }

  /** A page that does not end a line has no line ending within the window before its end. */
  lemma PageEndsALine(body: seq<Unit>, offset: nat, maxBytes: nat, end: nat)
    requires EndsAt(body, offset, maxBytes, end) && 0 < end < |body| && body[end - 1] != NEWLINE
    ensures forall k :: offset <= k < end && end - (k + 1) <= LINE_WINDOW ==> body[k] != NEWLINE
  {
    hide Utf8Size, ReachesTo;
    var cut :| 0 <= cut <= |body| && ReachesTo(body, offset, maxBytes, cut) && end == Trimmed(body, offset, cut);
  }

  lemma EndIsUnique(body: seq<Unit>, offset: nat, maxBytes: nat, end: nat, other: nat)
    requires Boundary(body, offset) && EndsAt(body, offset, maxBytes, end) && EndsAt(body, offset, maxBytes, other)
    ensures end == other
  {
    var cut :| 0 <= cut <= |body| && ReachesTo(body, offset, maxBytes, cut) && end == Trimmed(body, offset, cut);
    var cut' :| 0 <= cut' <= |body| && ReachesTo(body, offset, maxBytes, cut') && other == Trimmed(body, offset, cut');
    ReachIsUnique(body, offset, maxBytes, cut, cut');
  }

  // ---- a page, and the walk over all of them ----

  datatype Range = Range(offset: nat, end: nat, totalChars: nat, totalBytes: nat, complete: bool,
      nextOffset: Option<nat>)
  datatype BodyPage = BodyPage(body: seq<Unit>, range: Range)

  /** No page starts past the end, at the end of a body that has any, or inside a pair. */
  predicate PageStart(body: seq<Unit>, offset: nat) {
    offset <= |body| && (offset == |body| ==> body == []) && !InsidePair(body, offset)
  }

  predicate PageOf(body: seq<Unit>, offset: nat, maxBytes: nat, page: BodyPage) {
    var end := page.range.end;
    && EndsAt(body, offset, maxBytes, end) && offset <= end <= |body|
    && page == BodyPage(body[offset..end],
         Range(offset, end, |body|, Utf8Size(body), offset == 0
             && end == |body|, if end < |body| then Some(end) else None))
  }

  method Page(body: seq<Unit>, offset: nat, maxBytes: nat) returns (page: Option<BodyPage>)
    ensures page.Some? <==> PageStart(body, offset)
    ensures page.Some? ==> PageOf(body, offset, maxBytes, page.value)
  {
    var insidePair := 0 < offset < |body| && LowSurrogate(body[offset]) && HighSurrogate(body[offset - 1]);
    if offset > |body| || (offset == |body| && |body| > 0) || insidePair {
      return None;
    }
    var end := PageEnd(body, offset, maxBytes);
    PageIsSound(body, offset, maxBytes, end);
    return Some(BodyPage(body[offset..end],
      Range(offset, end, |body|, Utf8Size(body), offset == 0
          && end == |body|, if end < |body| then Some(end) else None)));
  }

  /** Pages read one after the other: each starts where the one before says the next one does. */
  predicate Walk(body: seq<Unit>, offset: nat, maxBytes: nat, pages: seq<BodyPage>)
    decreases |pages|
  {
    && pages != [] && PageStart(body, offset) && PageOf(body, offset, maxBytes, pages[0])
    && match pages[0].range.nextOffset
       case None => |pages| == 1
       case Some(next) => Walk(body, next, maxBytes, pages[1..])
  }

  function Bodies(pages: seq<BodyPage>): seq<Unit> {
    if pages == [] then [] else pages[0].body + Bodies(pages[1..])
  }

  function Bytes(pages: seq<BodyPage>): nat {
    if pages == [] then 0 else Utf8Size(pages[0].body) + Bytes(pages[1..])
  }

  /** A reader that follows `nextOffset` is never refused and always comes to an end. */
  method ReadFrom(body: seq<Unit>, offset: nat, maxBytes: nat) returns (pages: seq<BodyPage>)
    requires PageStart(body, offset)
    ensures Walk(body, offset, maxBytes, pages)
    decreases |body| - offset
  {
    var page := Page(body, offset, maxBytes);
    PageIsSound(body, offset, maxBytes, page.value.range.end);
    pages := [page.value];
    if page.value.range.nextOffset.Some? {
      var rest := ReadFrom(body, page.value.range.nextOffset.value, maxBytes);
      pages := pages + rest;
      assert pages[1..] == rest;
    }
  }

  /** A page that splits no character, and fits its bound unless it is a single one. */
  predicate SoundPage(body: seq<Unit>, maxBytes: nat, page: BodyPage) {
    var range := page.range;
    && Boundary(body, range.offset) && Boundary(body, range.end) && range.offset <= range.end
       && page.body == body[range.offset..range.end]
    && (Utf8Size(page.body) <= maxBytes
         || (range.offset < |body| && range.end == range.offset + Units(CodePointAt(body, range.offset))))
  }

  /** Whatever walk the pages make, they are the body, in order, and their sizes are its size. */
  lemma {:induction false} WalkIsTheBody(body: seq<Unit>, offset: nat, maxBytes: nat, pages: seq<BodyPage>)
    requires Walk(body, offset, maxBytes, pages)
    ensures Bodies(pages) == body[offset..] && Bytes(pages) == Utf8Size(body[offset..])
    decreases |pages|
  {
    hide Utf8Size, EndsAt;
    var end := pages[0].range.end;
    PageIsSound(body, offset, maxBytes, end);
    if end < |body| {
      WalkIsTheBody(body, end, maxBytes, pages[1..]);
      assert body[offset..end] + body[end..] == body[offset..];
      PieceAdds(body, offset, end, |body|);
      assert body[offset..|body|] == body[offset..] && body[end..|body|] == body[end..];
    } else {
      LastPage(body, offset, pages);
    }
  }

  lemma LastPage(body: seq<Unit>, offset: nat, pages: seq<BodyPage>)
    requires |pages| == 1 && offset <= |body| && pages[0].body == body[offset..]
    ensures Bodies(pages) == body[offset..] && Bytes(pages) == Utf8Size(body[offset..])
  {
    assert pages[1..] == [];
  }

  lemma {:induction false} WalkIsSound(body: seq<Unit>, offset: nat, maxBytes: nat, pages: seq<BodyPage>)
    requires Walk(body, offset, maxBytes, pages)
    ensures forall page :: page in pages ==> SoundPage(body, maxBytes, page)
    decreases |pages|
  {
    hide Utf8Size, EndsAt;
    PageIsSound(body, offset, maxBytes, pages[0].range.end);
    assert SoundPage(body, maxBytes, pages[0]);
    hide SoundPage;
    if |pages| > 1 {
      WalkIsSound(body, pages[0].range.nextOffset.value, maxBytes, pages[1..]);
    }
    assert pages == [pages[0]] + pages[1..];
  }

  /** With room for any one character every page fits its bound. */
  lemma WholePagesFit(body: seq<Unit>, offset: nat, maxBytes: nat, pages: seq<BodyPage>)
    requires Walk(body, offset, maxBytes, pages) && maxBytes >= 4
    ensures forall page :: page in pages ==> Utf8Size(page.body) <= maxBytes
  {
    WalkIsSound(body, offset, maxBytes, pages);
    hide Utf8Size, Walk;
    forall page | page in pages ensures Utf8Size(page.body) <= maxBytes {
      if page.range.offset < |body| {
        CharacterSize(body, page.range.offset);
      }
    }
  }

  /** A reader from the start gets the whole body, and its pages' sizes add up to the size each one reports. */
  method ReadAll(body: seq<Unit>, maxBytes: nat) returns (pages: seq<BodyPage>)
    ensures Walk(body, 0, maxBytes, pages) && Bodies(pages) == body && Bytes(pages) == Utf8Size(body)
  {
    pages := ReadFrom(body, 0, maxBytes);
    WalkIsTheBody(body, 0, maxBytes, pages);
    assert body[0..] == body;
  }
}
