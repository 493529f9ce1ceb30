/** The settings window's bookkeeping: the book selector, the hotkey strings,
    the guards and progress lookup before a reading session starts, and the
    progress update when it ends. Widgets and colour dialogs are not modelled. */
module Window {
  import opened Options
  import opened Text
  import Novels
  import Config
  import Reader

  /** The disabled selector entry shown when there is no book. */
  const Placeholder := "books文件夹为空"

  /** `load_books_to_selector`: the selector's entries. */
  function SelectorItems(books: seq<string>): (items: seq<string>)
    ensures |items| >= 1
    ensures |books| > 0 ==> items == books
    ensures |books| == 0 ==> items == [Placeholder]
  {
    if |books| > 0 then books else [Placeholder]
  }

  /** Whether the selector can be used. */
  function SelectorEnabled(books: seq<string>): bool
  {
    |books| > 0
  }

  /** The placeholder is never the name of a book, so it cannot shadow one. */
  lemma PlaceholderIsNoBook(dir: Novels.BooksDir)
    ensures Placeholder !in Novels.GetAllBooksNames(dir)
    ensures Novels.GetAllBooksNames(dir) == [] ==>
              SelectorItems(Novels.GetAllBooksNames(dir)) == [Placeholder] && !SelectorEnabled(Novels.GetAllBooksNames(dir))
  {
    assert Placeholder[|Placeholder| - 1] == '空';
    assert !Novels.IsTxtName(Placeholder);
  }

  /** The values of the form's controls when "start reading" is pressed. */
  datatype Form = Form(
    selectedBook: string,
    linesPerPage: int,
    charsPerLine: int,
    minimizeModifier: string,
    minimizeKey: string,
    closeModifier: string,
    closeKey: string,
    pagingStyle: string)

  /** The ranges the spin boxes keep their values in. */
  predicate SpinBoxRanges(form: Form)
  {
    1 <= form.linesPerPage <= 20 && 10 <= form.charsPerLine <= 100
  }

  /** A global hotkey in the listener's syntax: `<modifier>+key`, lower case. */
  function HotkeyString(modifier: string, key: string): (h: string)
    ensures |h| == |modifier| + |key| + 3
    ensures h[0] == '<' && h[|modifier| + 1] == '>' && h[|modifier| + 2] == '+'
    ensures h[1..|modifier| + 1] == Lower(modifier) && h[|modifier| + 3..] == Lower(key)
    ensures forall i :: 0 <= i < |h| ==> !('A' <= h[i] <= 'Z')
  {
    "<" + Lower(modifier) + ">+" + Lower(key)
  }

  /** The first position of `c` in `s`. */
  function IndexOf(s: string, c: char): (r: Option<nat>)
    ensures r.Some? ==> r.value < |s| && s[r.value] == c && c !in s[..r.value]
    ensures r.None? ==> c !in s
  {
    if s == [] then None
    else if s[0] == c then Some(0)
    else match IndexOf(s[1..], c)
         case None => None
         case Some(i) => assert s[..i + 1] == [s[0]] + s[1..][..i]; Some(i + 1)
  }

  /** Splits `<modifier>+key` back into its modifier and key. */
  function ParseHotkey(h: string): Option<(string, string)>
  {
    if h == [] || h[0] != '<' then None
    else match IndexOf(h[1..], '>')
         case None => None
         case Some(p) =>
           var rest := h[p + 2..];
           if rest != [] && rest[0] == '+' then Some((h[1..p + 1], rest[1..])) else None
  }

  /** The first `c` in `a + [c] + b` is the one after `a` when `a` has none. */
  lemma {:induction false} IndexOfAfter(a: string, c: char, b: string)
    requires c !in a
    ensures IndexOf(a + [c] + b, c) == Some(|a|)
  {
    if a != [] {
      assert (a + [c] + b)[1..] == a[1..] + [c] + b;
      IndexOfAfter(a[1..], c, b);
    }
  }

  /** A hotkey string gives back the lower-cased modifier and key it was built
      from, provided the modifier contains no `>` (as none of the offered ones do). */
  lemma HotkeyRoundTrip(modifier: string, key: string)
    requires '>' !in Lower(modifier)
    ensures ParseHotkey(HotkeyString(modifier, key)) == Some((Lower(modifier), Lower(key)))
  {
    var m, k := Lower(modifier), Lower(key);
    var h := HotkeyString(modifier, key);
    assert h[1..] == m + ['>'] + ("+" + k);
    IndexOfAfter(m, '>', "+" + k);
    assert h[|m| + 2..] == "+" + k;
    assert h[1..|m| + 1] == m;
  }

  /** The form's initial hotkey choices (Ctrl+M and Alt+Q) give the stored
      defaults, and the default paging style is the reader's arrow style. */
  lemma FormDefaultsMatchStoredDefaults()
    ensures Config.Str(HotkeyString("Ctrl", "M")) == Config.DefaultSettings()["minimize_hotkey"]
    ensures Config.Str(HotkeyString("Alt", "Q")) == Config.DefaultSettings()["close_hotkey"]
    ensures Config.Str(Reader.ArrowStyle) == Config.DefaultSettings()["paging_hotkey"]
  {
    assert Lower("Ctrl") == "ctrl";
    assert Lower("M") == "m";
    assert Lower("Alt") == "alt";
    assert Lower("Q") == "q";
    assert HotkeyString("Ctrl", "M") == "<ctrl>+m";
    assert HotkeyString("Alt", "Q") == "<alt>+q";
  }

  /** The offset a book was left at: `progress[book]`, or 0 when there is no
      progress map or no entry for the book. */
  function StartIndex(app: Config.Settings, book: string): (start: int)
    ensures "progress" !in app ==> start == 0
    ensures "progress" in app && app["progress"].Object? && book !in app["progress"].fields ==> start == 0
    ensures "progress" in app && app["progress"].Object? && book in app["progress"].fields ==>
              app["progress"].fields[book].Int? ==> start == app["progress"].fields[book].i
  {
    if "progress" in app && app["progress"].Object? && book in app["progress"].fields
       && app["progress"].fields[book].Int?
    then app["progress"].fields[book].i
    else 0
  }

  /** The progress map of `app`, an empty one when there is none. */
  function ProgressOf(app: Config.Settings): map<string, Config.Value>
  {
    if "progress" in app && app["progress"].Object? then app["progress"].fields else map[]
  }

  /** `on_reader_closed`: `progress[book] := offset`, creating `progress` if absent. */
  function RecordProgress(app: Config.Settings, book: string, offset: int): (r: Config.Settings)
    ensures r.Keys == app.Keys + {"progress"}
    ensures forall k :: k in app && k != "progress" ==> r[k] == app[k]
    ensures r["progress"].Object? && r["progress"].fields.Keys == ProgressOf(app).Keys + {book}
    ensures r["progress"].fields[book] == Config.Int(offset)
    ensures forall b :: b in ProgressOf(app) && b != book ==> r["progress"].fields[b] == ProgressOf(app)[b]
  {
    app["progress" := Config.Object(ProgressOf(app)[book := Config.Int(offset)])]
  }

  /** What is recorded for a book is where the next session on it starts;
      the other books' start offsets are unchanged, and a book never recorded
      starts at 0. */
  lemma ResumeWhereLeft(app: Config.Settings, book: string, offset: int, other: string)
    requires other != book
    ensures StartIndex(RecordProgress(app, book, offset), book) == offset
    ensures StartIndex(RecordProgress(app, book, offset), other) == StartIndex(app, other)
    ensures other !in ProgressOf(app) ==> StartIndex(RecordProgress(app, book, offset), other) == 0
  {
  }

  /** What pressing "start reading" leads to: no reader, a reader over a text,
      or an exception escaping `start_reading`. */
  datatype StartPlan = NoReader | OpenReader(settings: Reader.ReaderSettings, content: string) | Fails(exception: string)

  /** `start_reading`: no reader for the placeholder or when loading returns an
      error; the loader's exception escapes; otherwise a reader over the loaded
      text with the form's values, starting at the book's progress. */
  function PlanReading(form: Form, dir: Novels.BooksDir, app: Config.Settings): (plan: StartPlan)
    requires SpinBoxRanges(form)
    ensures form.selectedBook == Placeholder ==> plan == NoReader
    ensures form.selectedBook != Placeholder ==>
              var loaded := Novels.LoadBookAsString(dir, form.selectedBook);
              && (plan.Fails? <==> loaded.Raises?)
              && (loaded.Raises? ==> plan == Fails(loaded.exception))
              && (plan.NoReader? <==> loaded.Returns? && loaded.value.error.Some?)
    ensures plan.OpenReader? ==>
              && Novels.LoadBookAsString(dir, form.selectedBook) == Returns(Novels.Loaded(Some(plan.content), None))
              && Reader.StartCharIndex(plan.settings) == StartIndex(app, form.selectedBook)
              && Reader.BookName(plan.settings) == form.selectedBook
              && Reader.LinesPerPage(plan.settings) == form.linesPerPage
              && Reader.CharsPerLine(plan.settings) == form.charsPerLine
              && 1 <= Reader.LinesPerPage(plan.settings) <= 20
              && 10 <= Reader.CharsPerLine(plan.settings) <= 100
              && Reader.PagingStyle(plan.settings) == form.pagingStyle
              && plan.settings.minimizeHotkey == Some(HotkeyString(form.minimizeModifier, form.minimizeKey))
              && plan.settings.closeHotkey == Some(HotkeyString(form.closeModifier, form.closeKey))
  {
    if form.selectedBook == Placeholder then NoReader
    else
      match Novels.LoadBookAsString(dir, form.selectedBook)
      case Raises(exception) => Fails(exception)
      case Returns(loaded) =>
        if loaded.error.Some? && loaded.error.value != "" then NoReader
        else
          OpenReader(
            Reader.ReaderSettings(
              selectedBook := Some(form.selectedBook),
              startCharIndex := Some(StartIndex(app, form.selectedBook)),
              charsPerLine := Some(form.charsPerLine),
              linesPerPage := Some(form.linesPerPage),
              pagingHotkey := Some(form.pagingStyle),
              minimizeHotkey := Some(HotkeyString(form.minimizeModifier, form.minimizeKey)),
              closeHotkey := Some(HotkeyString(form.closeModifier, form.closeKey))),
            loaded.content.value)
  }

  /** A whole session: open a book, press any keys, close. The recorded offset
      is where the next session on that book starts; it is a whole number of
      pages from where this one started, and inside the book if that was. */
  lemma SessionResumes(form: Form, dir: Novels.BooksDir, app: Config.Settings, keys: seq<int>)
    requires SpinBoxRanges(form)
    requires PlanReading(form, dir, app).OpenReader?
    ensures var plan := PlanReading(form, dir, app);
            var start := StartIndex(app, form.selectedBook);
            var pageSize := form.charsPerLine * form.linesPerPage;
            var len := |plan.content|;
            var final := Reader.OffsetAfterKeys(form.pagingStyle, keys, start, pageSize, len);
            var next := PlanReading(form, dir, RecordProgress(app, form.selectedBook, final));
            && next.OpenReader?
            && Reader.StartCharIndex(next.settings) == final
            && final == start + Reader.PagesTurned(form.pagingStyle, keys, start, pageSize, len) * pageSize
            && (0 <= start < len ==> 0 <= final < len)
  {
    var plan := PlanReading(form, dir, app);
    var start := StartIndex(app, form.selectedBook);
    var pageSize := form.charsPerLine * form.linesPerPage;
    Reader.MulPositive(form.charsPerLine, form.linesPerPage);
    Reader.KeysStayOnPages(form.pagingStyle, keys, start, pageSize, |plan.content|);
    var final := Reader.OffsetAfterKeys(form.pagingStyle, keys, start, pageSize, |plan.content|);
    assert StartIndex(RecordProgress(app, form.selectedBook, final), form.selectedBook) == final;
  }

  /** The settings window. */
  class MainWindow {
    const config: Config.ConfigHandler
    const library: Novels.BooksDir
    var appSettings: Config.Settings
    var readerView: Reader.ReaderView?

    /** `__init__`: the settings are loaded twice, through two handlers on the
        same file; the second load finds nothing to fill in and writes nothing. */
    constructor (configFile: Config.ConfigFile, library: Novels.BooksDir)
      ensures this.library == library && readerView == null
      ensures appSettings == Config.Load(configFile).settings
      ensures config.file == Config.Stored(appSettings)
      ensures config.writes == 0
    {
      var first := new Config.ConfigHandler(configFile);
      var settings := first.LoadSettings();
      var second := new Config.ConfigHandler(first.file);
      Config.LoadTwiceIsStable(configFile);
      settings := second.LoadSettings();
      this.library := library;
      config := second;
      appSettings := settings;
      readerView := null;
    }

    /** `start_reading`; `escaped` is the exception that leaves it, if any. */
    method StartReading(form: Form) returns (escaped: Option<string>)
      requires SpinBoxRanges(form)
      modifies this
      ensures appSettings == old(appSettings)
      ensures match PlanReading(form, library, appSettings)
              case NoReader => readerView == old(readerView) && escaped == None
              case Fails(exception) => readerView == old(readerView) && escaped == Some(exception)
              case OpenReader(settings, content) =>
                && readerView != null && fresh(readerView) && readerView.Valid()
                && readerView.settings == settings && readerView.fullContent == content
                && readerView.currentCharIndex == Reader.StartCharIndex(settings)
                && escaped == None
    {
      escaped := None;
      var minimizeHotkey := HotkeyString(form.minimizeModifier, form.minimizeKey);
      var closeHotkey := HotkeyString(form.closeModifier, form.closeKey);
      var selectedBook := form.selectedBook;
      if selectedBook == Placeholder {
        return;
      }
      var settings := Reader.ReaderSettings(
        selectedBook := Some(selectedBook),
        startCharIndex := None,
        charsPerLine := Some(form.charsPerLine),
        linesPerPage := Some(form.linesPerPage),
        pagingHotkey := Some(form.pagingStyle),
        minimizeHotkey := Some(minimizeHotkey),
        closeHotkey := Some(closeHotkey));
      var outcome := Novels.LoadBookAsString(library, selectedBook);
      if outcome.Raises? {
        return Some(outcome.exception);
      }
      var loaded := outcome.value;
      if loaded.error.Some? && loaded.error.value != "" {
        return;
      }
      var startCharIndex := StartIndex(appSettings, selectedBook);
      settings := settings.(startCharIndex := Some(startCharIndex));
      readerView := new Reader.ReaderView(settings, loaded.content.value);
    }

    /** `on_reader_closed`: record the offset for the book and save the settings. */
    method OnReaderClosed(bookName: string, lastCharIndex: int)
      modifies this, config
      ensures appSettings == RecordProgress(old(appSettings), bookName, lastCharIndex)
      ensures config.file == Config.Stored(appSettings)
      ensures readerView == old(readerView)
    {
      if "progress" !in appSettings {
        appSettings := appSettings["progress" := Config.Object(map[])];
      }
      var progress := ProgressOf(appSettings);
      appSettings := appSettings["progress" := Config.Object(progress[bookName := Config.Int(lastCharIndex)])];
      config.SaveSettings(appSettings);
    }

    /** Closing the reader: its `closed` signal carries the book and offset to
        `on_reader_closed`. */
    method CloseReader()
      requires readerView != null && readerView.Valid()
      modifies this, config
      ensures readerView == old(readerView)
      ensures appSettings == RecordProgress(old(appSettings), Reader.BookName(old(readerView).settings),
                                            old(readerView.currentCharIndex))
      ensures config.file == Config.Stored(appSettings)
    {
      var bookName, charIndex := readerView.CloseEvent();
      OnReaderClosed(bookName, charIndex);
    }
  }
}
