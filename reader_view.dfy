/** The paginator of the reading overlay: a character offset into the
    normalised book, pages of `chars_per_line * lines_per_page` characters cut
    into rows, and page turning by key. Window chrome, dragging and the global
    hotkey listener are not modelled. */
module Reader {
  import opened Options
  import opened Seqs

  /** The line shown once the offset has run past the end of the book. */
  const EndSentinel := "(已到末尾)"

  /** The two paging styles the settings form offers. */
  const ArrowStyle := "← 和 →"
  const LetterStyle := "A 和 D"

  /** Qt key codes of the four paging keys. */
  const KeyLeft := 0x0100_0012
  const KeyRight := 0x0100_0014
  const KeyA := 0x41
  const KeyD := 0x44

  /** The entries of the settings dictionary the reader looks up;
      each is looked up with a default. */
  datatype ReaderSettings = ReaderSettings(
    selectedBook: Option<string>,
    startCharIndex: Option<int>,
    charsPerLine: Option<int>,
    linesPerPage: Option<int>,
    pagingHotkey: Option<string>,
    minimizeHotkey: Option<string>,
    closeHotkey: Option<string>)

  function CharsPerLine(s: ReaderSettings): int { s.charsPerLine.GetOr(40) }
  function LinesPerPage(s: ReaderSettings): int { s.linesPerPage.GetOr(10) }
  function StartCharIndex(s: ReaderSettings): int { s.startCharIndex.GetOr(0) }
  function PagingStyle(s: ReaderSettings): string { s.pagingHotkey.GetOr(ArrowStyle) }
  function BookName(s: ReaderSettings): string { s.selectedBook.GetOr("") }

  /** Where a Python slice bound `n` lands in a sequence of length `len`. */
  function SliceBound(n: int, len: nat): (k: nat)
    ensures k <= len
    ensures 0 <= n ==> k == Min(n, len)
  {
    if n < 0 then (if n + len < 0 then 0 else n + len) else Min(n, len)
  }

  /** Python's `s[lo:hi]`, negative bounds counting from the end. */
  function PySlice<T>(s: seq<T>, lo: int, hi: int): (r: seq<T>)
    ensures lo <= hi ==> |r| <= hi - lo
    ensures 0 <= lo <= hi ==> r == s[Min(lo, |s|)..Min(hi, |s|)]
    ensures -|s| <= lo < 0 && |s| <= hi ==> r == s[lo + |s|..]
  {
    var a, b := SliceBound(lo, |s|), SliceBound(hi, |s|);
    if a < b then s[a..b] else []
  }

  /** The text of the page at offset `i`: `content[i : i + pageSize]`. */
  function PageText(content: string, i: int, pageSize: int): (page: string)
    ensures 0 <= pageSize ==> |page| <= pageSize
    ensures 0 <= i && 0 < pageSize ==> (page == [] <==> |content| <= i)
    ensures 0 <= i < |content| && 0 <= pageSize ==> page == content[i..Min(i + pageSize, |content|)]
  {
    PySlice(content, i, i + pageSize)
  }

  /** The rows of a page: `[s[j:j+w] for j in range(0, len(s), w)]`. */
  function Chunks(s: string, w: int): (rows: seq<string>)
    requires w > 0
    ensures rows == [] <==> s == []
    ensures forall k :: 0 <= k < |rows| - 1 ==> |rows[k]| == w
    ensures s != [] ==> 1 <= |rows[|rows| - 1]| <= w
    decreases |s|
  {
    if s == [] then []
    else if |s| <= w then [s]
    else [s[..w]] + Chunks(s[w..], w)
  }

  /** The rows put back together are the page: no character lost or repeated. */
  lemma {:induction false} ChunksConcat(s: string, w: int)
    requires w > 0
    ensures Concat(Chunks(s, w)) == s
    decreases |s|
  {
    if |s| > w {
      ChunksConcat(s[w..], w);
      assert s == s[..w] + s[w..];
    }
  }

  /** Arithmetic step for `ChunkAt`: row `k - 1` ends where row `k` starts. */
  lemma MulStep(k: int, w: int)
    ensures (k - 1) * w + w == k * w
  {
  }

  /** A positive page size, for the reader's constructor and `SessionResumes`. */
  lemma MulPositive(a: int, b: int)
    requires a > 0 && b > 0
    ensures a * b > 0
  {
  }

  /** Whole pages add up, for `NextPage`, `PrevPage` and `KeysStayOnPages`. */
  lemma MulAdd(t: int, n: int, w: int)
    ensures t * w + n * w == (t + n) * w
  {
  }

  /** Row `k` starts at character `k * w`, as in the comprehension. */
  lemma {:induction false} ChunkAt(s: string, w: int, k: int)
    requires w > 0 && 0 <= k < |Chunks(s, w)|
    ensures k * w < |s|
    ensures Chunks(s, w)[k] == s[k * w..Min(k * w + w, |s|)]
    decreases |s|
  {
    if k == 0 {
      assert k * w == 0;
    } else {
      ChunksTail(s, w, k);
      ChunkAt(s[w..], w, k - 1);
      MulStep(k, w);
      SliceOfTail(s, w, (k - 1) * w);
    }
  }

  /** Past the first row, the rows are those of the rest of the page. */
  lemma ChunksTail(s: string, w: int, k: int)
    requires w > 0 && 0 < k < |Chunks(s, w)|
    ensures |s| > w && 0 <= k - 1 < |Chunks(s[w..], w)|
    ensures Chunks(s, w)[k] == Chunks(s[w..], w)[k - 1]
  {
    assert Chunks(s, w) == if s == [] then [] else if |s| <= w then [s] else [s[..w]] + Chunks(s[w..], w);
  }

  /** A slice of the rest of the page is a slice of the page shifted by one row, for `ChunkAt`. */
  lemma SliceOfTail(s: string, w: int, j: int)
    requires 0 <= w <= |s| && 0 <= j < |s| - w
    ensures s[w..][j..Min(j + w, |s| - w)] == s[j + w..Min(j + w + w, |s|)]
  {
  }

  /** A page of at most `lines * w` characters has at most `lines` rows. */
  lemma {:induction false} ChunksCount(s: string, w: int, lines: int)
    requires w > 0 && lines >= 0 && |s| <= lines * w
    ensures |Chunks(s, w)| <= lines
    decreases lines
  {
    if |s| > w {
      assert |s[w..]| <= (lines - 1) * w;
      ChunksCount(s[w..], w, lines - 1);
    } else if s != [] {
      assert lines >= 1;
    }
  }

  /** What `update_display` puts on the label, row by row. */
  function PageLines(content: string, i: int, charsPerLine: int, linesPerPage: int): (lines: seq<string>)
    requires charsPerLine > 0 && linesPerPage > 0
    ensures var page := PageText(content, i, charsPerLine * linesPerPage);
            && (page == [] ==> lines == [EndSentinel])
            && (page != [] ==> Concat(lines) == page)
            && (page != [] ==> forall k :: 0 <= k < |lines| - 1 ==> |lines[k]| == charsPerLine)
            && (page != [] ==> 1 <= |lines[|lines| - 1]| <= charsPerLine)
            && |lines| <= linesPerPage
  {
    var page := PageText(content, i, charsPerLine * linesPerPage);
    if page == [] then [EndSentinel]
    else
      ChunksConcat(page, charsPerLine);
      ChunksCount(page, charsPerLine, linesPerPage);
      Chunks(page, charsPerLine)
  }

  /** Turning page after page from the start shows the book in order: the page
      at offset `k * pageSize` is the `k`-th piece of the book. */
  lemma PagesCoverBook(content: string, pageSize: int, k: int)
    requires pageSize > 0 && 0 <= k < |Chunks(content, pageSize)|
    ensures PageText(content, k * pageSize, pageSize) == Chunks(content, pageSize)[k]
  {
    ChunkAt(content, pageSize, k);
    var i := k * pageSize;
    if k > 0 {
      MulPositive(k, pageSize);
    }
    assert 0 <= i < |content|;
    assert PageText(content, i, pageSize) == content[i..Min(i + pageSize, |content|)];
  }

  /** `next_page`: forward by a page only if the new offset is inside the book. */
  function NextOffset(i: int, pageSize: int, len: int): (j: int)
    ensures i + pageSize < len ==> j == i + pageSize
    ensures len <= i + pageSize ==> j == i
    ensures 0 <= i < len && 0 <= pageSize ==> 0 <= j < len
  {
    if i + pageSize < len then i + pageSize else i
  }

  /** `prev_page`: back by a page only if the new offset is not negative. */
  function PrevOffset(i: int, pageSize: int): (j: int)
    ensures 0 <= i - pageSize ==> j == i - pageSize
    ensures i - pageSize < 0 ==> j == i
    ensures 0 <= i ==> 0 <= j
  {
    if i - pageSize >= 0 then i - pageSize else i
  }

  /** Turning forward and then back, or back and then forward, returns to the
      page one started from whenever the first turn happened. */
  lemma TurnsUndo(i: int, pageSize: int, len: int)
    requires 0 <= i < len && pageSize > 0
    ensures NextOffset(i, pageSize, len) != i ==> PrevOffset(NextOffset(i, pageSize, len), pageSize) == i
    ensures PrevOffset(i, pageSize) != i ==> NextOffset(PrevOffset(i, pageSize), pageSize, len) == i
  {
  }

  /** The offset after a key press in the given paging style. */
  function OffsetAfterKey(style: string, key: int, i: int, pageSize: int, len: int): (j: int)
    ensures (style == ArrowStyle && key == KeyRight) || (style == LetterStyle && key == KeyD) ==>
              j == NextOffset(i, pageSize, len)
    ensures (style == ArrowStyle && key == KeyLeft) || (style == LetterStyle && key == KeyA) ==>
              j == PrevOffset(i, pageSize)
    ensures !(style == ArrowStyle && key in {KeyLeft, KeyRight}) && !(style == LetterStyle && key in {KeyA, KeyD}) ==>
              j == i
    ensures j == i || j == i + pageSize || j == i - pageSize
  {
    if style == ArrowStyle then
      if key == KeyRight then NextOffset(i, pageSize, len)
      else if key == KeyLeft then PrevOffset(i, pageSize)
      else i
    else if style == LetterStyle then
      if key == KeyD then NextOffset(i, pageSize, len)
      else if key == KeyA then PrevOffset(i, pageSize)
      else i
    else i
  }

  /** Which way a key press turned the page: +1, -1 or 0. */
  function PageTurn(style: string, key: int, i: int, pageSize: int, len: int): int
  {
    var j := OffsetAfterKey(style, key, i, pageSize, len);
    if j > i then 1 else if j < i then -1 else 0
  }

  /** The offset after a sequence of key presses. */
  function OffsetAfterKeys(style: string, keys: seq<int>, i: int, pageSize: int, len: int): int
    decreases |keys|
  {
    if keys == [] then i
    else OffsetAfterKeys(style, keys[1..], OffsetAfterKey(style, keys[0], i, pageSize, len), pageSize, len)
  }

  /** The net number of pages a sequence of key presses turned. */
  function PagesTurned(style: string, keys: seq<int>, i: int, pageSize: int, len: int): int
    decreases |keys|
  {
    if keys == [] then 0
    else PageTurn(style, keys[0], i, pageSize, len)
         + PagesTurned(style, keys[1..], OffsetAfterKey(style, keys[0], i, pageSize, len), pageSize, len)
  }

  /** One key press moves the offset by at most one page, and an offset inside
      the book stays inside it. */
  lemma KeyTurnsOnePage(style: string, key: int, i: int, pageSize: int, len: int)
    requires pageSize > 0
    ensures OffsetAfterKey(style, key, i, pageSize, len) == i + PageTurn(style, key, i, pageSize, len) * pageSize
    ensures 0 <= i < len ==> 0 <= OffsetAfterKey(style, key, i, pageSize, len) < len
  {
    var j := OffsetAfterKey(style, key, i, pageSize, len);
    assert j == i || j == i + pageSize || j == i - pageSize;
  }

  /** Whatever keys are pressed, the offset moves in whole pages from where it
      started, and an offset that started inside the book stays inside it. */
  lemma {:induction false} KeysStayOnPages(style: string, keys: seq<int>, i: int, pageSize: int, len: int)
    requires pageSize > 0
    ensures OffsetAfterKeys(style, keys, i, pageSize, len) == i + PagesTurned(style, keys, i, pageSize, len) * pageSize
    ensures 0 <= i < len ==> 0 <= OffsetAfterKeys(style, keys, i, pageSize, len) < len
    decreases |keys|
  {
    if keys != [] {
      var j := OffsetAfterKey(style, keys[0], i, pageSize, len);
      var t := PageTurn(style, keys[0], i, pageSize, len);
      KeyTurnsOnePage(style, keys[0], i, pageSize, len);
      KeysStayOnPages(style, keys[1..], j, pageSize, len);
      var n := PagesTurned(style, keys[1..], j, pageSize, len);
      MulAdd(t, n, pageSize);
    }
  }

  /** The reading overlay's cursor and the rows it shows. */
  class ReaderView {
    const settings: ReaderSettings
    const fullContent: string
    const pageCharCount: int
    var currentCharIndex: int
    /** The rows on the text label. */
    var shownLines: seq<string>
    /** The offset the view was opened at, and the net pages turned since. */
    ghost const startIndex: int
    ghost var pagesTurned: int

    ghost predicate Valid()
      reads this
    {
      && CharsPerLine(settings) > 0 && LinesPerPage(settings) > 0
      && pageCharCount == CharsPerLine(settings) * LinesPerPage(settings)
      && pageCharCount > 0
      && startIndex == StartCharIndex(settings)
      && currentCharIndex == startIndex + pagesTurned * pageCharCount
      && (0 <= startIndex < |fullContent| ==> 0 <= currentCharIndex < |fullContent|)
      && shownLines == PageLines(fullContent, currentCharIndex, CharsPerLine(settings), LinesPerPage(settings))
    }

    /** `__init__`: the offset starts at `start_char_index` (0 by default), the
        page holds `chars_per_line * lines_per_page` characters (40 and 10 by
        default), and the first page is shown. */
    constructor (settings: ReaderSettings, fullContent: string)
      requires CharsPerLine(settings) > 0 && LinesPerPage(settings) > 0
      ensures Valid()
      ensures this.settings == settings && this.fullContent == fullContent
      ensures currentCharIndex == StartCharIndex(settings)
      ensures pageCharCount == CharsPerLine(settings) * LinesPerPage(settings)
    {
      this.settings := settings;
      this.fullContent := fullContent;
      currentCharIndex := StartCharIndex(settings);
      pageCharCount := CharsPerLine(settings) * LinesPerPage(settings);
      MulPositive(CharsPerLine(settings), LinesPerPage(settings));
      startIndex := StartCharIndex(settings);
      pagesTurned := 0;
      new;
      UpdateDisplay();
    }

    /** `update_display`: the rows of the current page, or the end sentinel. */
    method UpdateDisplay()
      requires CharsPerLine(settings) > 0 && LinesPerPage(settings) > 0
      requires pageCharCount == CharsPerLine(settings) * LinesPerPage(settings)
      modifies this`shownLines
      ensures shownLines == PageLines(fullContent, currentCharIndex, CharsPerLine(settings), LinesPerPage(settings))
    {
      var page := PySlice(fullContent, currentCharIndex, currentCharIndex + pageCharCount);
      if page == [] {
        shownLines := [EndSentinel];
        return;
      }
      shownLines := Chunks(page, CharsPerLine(settings));
    }

    /** `next_page`. */
    method NextPage()
      requires Valid()
      modifies this
      ensures Valid()
      ensures old(currentCharIndex) + pageCharCount < |fullContent| ==> currentCharIndex == old(currentCharIndex) + pageCharCount
      ensures old(currentCharIndex) + pageCharCount >= |fullContent| ==> currentCharIndex == old(currentCharIndex)
      ensures currentCharIndex == NextOffset(old(currentCharIndex), pageCharCount, |fullContent|)
    {
      var nextIndex := currentCharIndex + pageCharCount;
      if nextIndex < |fullContent| {
        MulAdd(pagesTurned, 1, pageCharCount);
        currentCharIndex := nextIndex;
        pagesTurned := pagesTurned + 1;
        UpdateDisplay();
      }
    }

    /** `prev_page`. */
    method PrevPage()
      requires Valid()
      modifies this
      ensures Valid()
      ensures old(currentCharIndex) - pageCharCount >= 0 ==> currentCharIndex == old(currentCharIndex) - pageCharCount
      ensures old(currentCharIndex) - pageCharCount < 0 ==> currentCharIndex == old(currentCharIndex)
      ensures currentCharIndex == PrevOffset(old(currentCharIndex), pageCharCount)
    {
      var prevIndex := currentCharIndex - pageCharCount;
      if prevIndex >= 0 {
        MulAdd(pagesTurned, -1, pageCharCount);
        currentCharIndex := prevIndex;
        pagesTurned := pagesTurned - 1;
        UpdateDisplay();
      }
    }

    /** `keyPressEvent`: Right/Left in the arrow style, D/A in the letter style
        turn the page; every other key, and every other style, does nothing. */
    method KeyPressEvent(key: int)
      requires Valid()
      modifies this
      ensures Valid()
      ensures currentCharIndex == OffsetAfterKey(PagingStyle(settings), key, old(currentCharIndex), pageCharCount, |fullContent|)
    {
      var pagingStyle := PagingStyle(settings);
      if pagingStyle == ArrowStyle {
        if key == KeyRight { NextPage(); }
        else if key == KeyLeft { PrevPage(); }
      } else if pagingStyle == LetterStyle {
        if key == KeyD { NextPage(); }
        else if key == KeyA { PrevPage(); }
      }
    }

    /** `closeEvent`: the book name (empty when absent) and the current offset. */
    method CloseEvent() returns (bookName: string, charIndex: int)
      requires Valid()
      ensures bookName == BookName(settings) && charIndex == currentCharIndex
      ensures charIndex == startIndex + pagesTurned * pageCharCount
      ensures 0 <= startIndex < |fullContent| ==> 0 <= charIndex < |fullContent|
    {
      bookName := BookName(settings);
      charIndex := currentCharIndex;
    }
  }
}
