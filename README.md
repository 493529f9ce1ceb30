# ReadInTheOffice: a Dafny model of the reader's text pipeline and bookkeeping

ReadInTheOffice is a desktop overlay for reading a plain-text novel. It lists
the `.txt` files in a `books` directory and picks a text encoding for the
chosen book (GB2312/GB18030 become GBK). It deletes every whitespace character
from the decoded text. It then shows the text in pages of
`chars_per_line * lines_per_page` characters, cut into rows, in an
always-on-top window. Arrow keys or A/D turn the pages. On close, the window
saves the reading offset for the book into a JSON settings file. That file
has a fixed default table, is backfilled on load and is reset to the defaults
when it is missing or corrupt.

The project has one module per source file, plus three small helper modules:

- `Novels` (`novel_handler.dfy`) models `Backend/novel_handler.py` as pure
  functions. The books directory is an abstract value (`BooksDir`: an
  optional listing and the files that exist). The charset detector's answer is
  an input (`Sample`). Decoding a file with a given encoding is a function
  stored in the file (`BookFile.read`).
- `Config` (`config_handler.dfy`) models `Backend/config_handler.py`. The
  class `ConfigHandler` holds the file's durable state:
  `Missing | Corrupt | Stored(settings)`. `Load` is the pure specification of
  `load_settings`, and the method `LoadSettings` is proved against it.
- `Reader` (`reader_view.dfy`) models the paging in `UI/reader_view.py`. The
  class `ReaderView` holds the offset, the page size and the rows on the
  label. Its invariant `Valid()` says four things:
  - the page size is positive;
  - the offset is the start offset plus a whole number of pages;
  - an offset that started inside the book stays inside it;
  - the shown rows are the rows of the current page.

  Slicing, row cutting and key dispatch are functions with lemmas.
- `Window` (`main_window.dfy`) models the non-widget parts of
  `UI/main_window.py`:
  - the book selector;
  - the hotkey strings;
  - the plan made by `start_reading`;
  - the progress update on close.

  The class `MainWindow` holds the loaded settings and the open reader.
- `Options`, `Seqs`, `Text` (`seqs.dfy`) are helpers:
  - an optional value;
  - the outcome of a Python call, a returned value or an escaping exception (`Outcome`);
  - an order-keeping filter with its lemmas;
  - sequence concatenation;
  - ASCII lower-casing;
  - `endswith`.

Some behaviours of the program worth knowing when reading the model:

- Normalisation is one `re.sub(r'\s+', '', content)`, so every whitespace character is deleted, line breaks included. `IsWhitespace` is the set of characters Python's `\s` matches in a `str` pattern.
- The default `paging_hotkey` is `"← 和 →"`, the first entry of the settings form's paging list.
- The settings form builds the reader's settings from its own controls and never writes them into the stored settings. The only thing saved after start-up is `progress`.
- Opening a book file can raise an error that the loader does not catch: an entry that exists but cannot be opened, such as a directory named `x.txt` or a file without read permission. The model carries that exception out of `load_book_as_string` and `start_reading` (`Outcome.Raises`, `StartPlan.Fails`).

## Model

| member | source | states |
|---|---|---|
| Novels.GetAllBooksNames | Backend/novel_handler.py:16-21 | The list holds exactly the listing's names that end in `.txt`, and never more names than the listing. A missing directory gives the empty list. |
| Novels.BookNamesKeepOrder | Backend/novel_handler.py:18-19 | Listing order is kept: the books of a listing `front + back` are the books of `front` followed by those of `back`. |
| Novels.ChooseEncoding | Backend/novel_handler.py:28-31 | A name that lower-cases to `gb2312`/`gb18030` becomes `gbk`. No name or an empty name gives `utf-8`. Any other name is returned with its own case. The result is never empty and never in the GB family. |
| Novels.ChooseEncodingIdempotent | Backend/novel_handler.py:29-31 | Applying the mapping to its own result changes nothing. |
| Novels.DetectEncoding | Backend/novel_handler.py:23-33 | A failure it catches (missing file or IndexError) gives `utf-8`. So does a verdict without an `encoding` key or with a null one. A named verdict goes through the mapping. Any other error from opening the file escapes, and only then is no name returned. |
| Novels.Normalize | Backend/novel_handler.py:50 | The result has no whitespace character, holds exactly the input's non-whitespace characters, and is no longer than the input. |
| Novels.NormalizeIdempotent | Backend/novel_handler.py:50 | Normalising twice gives the same result as normalising once. |
| Novels.NormalizeKeepsClean | Backend/novel_handler.py:50 | Text without whitespace is returned unchanged. |
| Novels.NormalizeConcat | Backend/novel_handler.py:50 | Non-whitespace characters keep their relative order: `Normalize(a + b) == Normalize(a) + Normalize(b)`. |
| Novels.NormalizeCounts | Backend/novel_handler.py:50 | Each non-whitespace character occurs in the result as often as in the input. Whitespace does not occur at all. |
| Novels.LoadBookAsString | Backend/novel_handler.py:35-53 | When it returns, exactly one of content and error is present, and an error is never empty. A missing file gives an error that ends with the file name. An existing entry that cannot be opened makes the exception escape, and that is the only way it raises. A successful read gives the normalised decoded text, using the detected encoding. A failed read gives the read-error message. |
| Config.DefaultSettings | Backend/config_handler.py:18-33 | The default table has ten keys. `progress` is an empty object, 10 lines per page and 40 characters per line. The hotkeys are `<ctrl>+m` and `<alt>+q`, and the paging style is `← 和 →`. |
| Config.Load | Backend/config_handler.py:35-62 | After any load, every default key is present. A missing or corrupt file gives exactly the defaults. Stored keys keep their values, and extra keys are preserved. Added keys take their default values. The file is written if and only if a default key was missing. |
| Config.FileAfterLoad | Backend/config_handler.py:40-62 | After a load, the file holds exactly the settings that the load returned. |
| Config.LoadTwiceIsStable | Backend/config_handler.py:50-57 | A second load returns the same settings and writes nothing. |
| Config.Backfill | Backend/config_handler.py:49-54 | The merged settings hold the stored keys plus the default keys. Stored values win, and keys missing from the stored settings take their default value. `FillMissing` is the loop that computes it, and `LoadTwiceIsStable` shows that it does nothing the second time. |
| Config.FillMissing | Backend/config_handler.py:49-54 | The backfill loop returns the stored keys plus the default keys. Stored values are kept, and missing keys get their default value. `is_updated` holds if and only if some default key was missing. |
| Config.ConfigHandler.SaveSettings | Backend/config_handler.py:64-69 | The file now holds exactly the given settings, and one more write has happened. |
| Config.ConfigHandler.LoadSettings | Backend/config_handler.py:35-62 | Returns what `Load` specifies and leaves the file holding the returned settings. It writes once when `Load` says it writes, otherwise never. |
| Reader.PySlice | UI/reader_view.py:102 | Python's `s[lo:hi]`. It is never longer than `hi - lo`. For non-negative bounds it is `s[min(lo, len)..min(hi, len)]`. For a negative `lo` no further back than `-len`, and `hi >= len`, it is the suffix that starts `-lo` characters from the end. |
| Reader.PageText | UI/reader_view.py:102 | For a non-negative offset, the page is `content[i..min(i+P, len)]`. It is empty exactly when the offset is at or past the end, and never longer than `P`. |
| Reader.Chunks | UI/reader_view.py:109 | There are no rows exactly when the page is empty. Every row but the last has `chars_per_line` characters, and the last has between 1 and `chars_per_line`. |
| Reader.ChunksConcat | UI/reader_view.py:109 | The rows concatenate back to the page: no character is lost or duplicated. |
| Reader.ChunkAt | UI/reader_view.py:109 | Row `k` is `page[k*w : (k+1)*w]`, as the comprehension over `range(0, len, w)` builds it. |
| Reader.ChunksCount | UI/reader_view.py:108-109 | A page of at most `lines * w` characters has at most `lines` rows. |
| Reader.PageLines | UI/reader_view.py:100-111 | An empty page shows only `(已到末尾)`. Otherwise the rows concatenate to the page and have the row sizes above. There are never more than `lines_per_page` rows. |
| Reader.PagesCoverBook | UI/reader_view.py:102 | The page at offset `k*P` is the `k`-th `P`-sized piece of the book. So pages taken from offset 0 in steps of `P` cover the book in order. |
| Reader.NextOffset | UI/reader_view.py:113-117 | `next_page` moves forward a page exactly when the new offset is still inside the book, and otherwise stays. An offset inside the book stays inside it. |
| Reader.PrevOffset | UI/reader_view.py:119-123 | `prev_page` moves back a page exactly when the new offset is not negative, and otherwise stays. A non-negative offset stays non-negative. |
| Reader.OffsetAfterKey | UI/reader_view.py:142-149 | Right in the arrow style and D in the letter style turn forward. Left and A turn back. Every other key or style leaves the offset. The offset moves by at most one page. |
| Reader.TurnsUndo | UI/reader_view.py:113-123 | Inside the book, a page turn that happened is undone by the opposite turn. |
| Reader.KeyTurnsOnePage | UI/reader_view.py:142-149 | One key press moves the offset by -P, 0 or +P, and keeps an in-book offset inside the book. |
| Reader.KeysStayOnPages | UI/reader_view.py:113-149 | After any key sequence, the offset is the start plus a whole number of pages. A start inside the book keeps the offset in `[0, len)`. |
| Reader.ReaderView.constructor | UI/reader_view.py:19-27 | The offset starts at `start_char_index` (default 0). The page size is `chars_per_line * lines_per_page` (defaults 40 and 10). The first page is shown. |
| Reader.ReaderView.UpdateDisplay | UI/reader_view.py:100-111 | The label shows the rows of the current page, or the end sentinel. |
| Reader.ReaderView.NextPage | UI/reader_view.py:113-117 | The offset becomes `i+P` if `i+P < len`; otherwise it is unchanged. The invariant is kept. |
| Reader.ReaderView.PrevPage | UI/reader_view.py:119-123 | The offset becomes `i-P` if `i-P >= 0`; otherwise it is unchanged. The invariant is kept. |
| Reader.ReaderView.KeyPressEvent | UI/reader_view.py:142-149 | In style `← 和 →`, Right turns forward and Left turns back. In style `A 和 D`, D turns forward and A turns back. Any other key or style leaves the offset unchanged. |
| Reader.ReaderView.CloseEvent | UI/reader_view.py:173-177 | Returns the selected book (or `""`) and the current offset. The offset is a whole number of pages from the start, and inside the book if the start was. |
| Window.SelectorItems | UI/main_window.py:168-175 | A non-empty book list is shown as it is. An empty one shows only the placeholder `books文件夹为空`. |
| Window.PlaceholderIsNoBook | UI/main_window.py:170-175 | The placeholder never ends in `.txt`, so it is never a book. With no books, the selector holds only the placeholder and is disabled. |
| Window.HotkeyString | UI/main_window.py:198-204 | The hotkey is `<`, the lower-cased modifier, `>+`, then the lower-cased key. It has no upper-case ASCII letter and is three characters longer than its parts. `HotkeyRoundTrip` parses it back. |
| Window.HotkeyRoundTrip | UI/main_window.py:198-204 | Splitting the built string `"<" + lower(modifier) + ">+" + lower(key)` gives back the lower-cased modifier and key. |
| Window.FormDefaultsMatchStoredDefaults | UI/main_window.py:109-147 | The form's initial choices (modifier Ctrl with key M, modifier Alt with key Q, and the first paging entry) build exactly the stored defaults of `Backend/config_handler.py` lines 29-31: `<ctrl>+m`, `<alt>+q` and `← 和 →`. |
| Window.RecordProgress | UI/main_window.py:245-247 | `progress` is created if absent, and then `progress[book]` is the offset. Other books' entries and other top-level keys are unchanged. |
| Window.StartIndex | UI/main_window.py:230-232 | The start offset is the book's integer entry in `progress`. It is 0 when there is no `progress` or no entry for the book. |
| Window.ResumeWhereLeft | UI/main_window.py:231-233 | The start offset read back for a book is the one just recorded. Other books' start offsets are unchanged. A book never recorded starts at 0. |
| Window.PlanReading | UI/main_window.py:195-233 | The placeholder never starts a reader, and a returned loader error never starts one. A loader exception escapes unchanged, and only then. Otherwise the reader gets the loaded text and starts at the book's progress (default 0). It gets the form's lines and characters per line, which are in 1..20 and 10..100, the form's paging style and the built hotkey strings. |
| Window.SessionResumes | UI/main_window.py:225-248 | Open a book, press any keys and close. The recorded offset is where the next session on that book starts. It is a whole number of pages from the old start, and inside the book if the old start was. |
| Window.MainWindow.constructor | UI/main_window.py:32-36 | The settings are loaded twice through two handlers on the same file. The window holds the once-loaded settings, and the second load writes nothing. |
| Window.MainWindow.StartReading | UI/main_window.py:195-240 | Creates a fresh, valid reader exactly when the plan opens one, with the plan's settings and text. The new reader's offset is the plan's start offset, which is the book's progress or 0. It reports the loader's exception exactly when the plan fails. Otherwise nothing changes. |
| Window.MainWindow.OnReaderClosed | UI/main_window.py:242-248 | The settings become the progress-updated settings, and the file then holds exactly them. |
| Window.MainWindow.CloseReader | UI/main_window.py:237 | The reader's `closed` signal records the reader's book and current offset through `on_reader_closed`. |

## Left out

- `main.py` (application start-up, icon, style sheet): not part of the core.
- All Qt widget work is not modelled: layouts, spin boxes, combo boxes, colour dialogs (`select_bg_color`, `select_font_color`, `_set_color_preview`), style sheets, window flags, dragging, `showEvent`, `toggle_visibility` and the quit button.
- The global-hotkey listener thread (`start_hotkey_listener`), stopping it on close, and the Qt signal wiring are left out: they are concurrency and an operating-system hook. `CloseReader` passes the reader's close values straight to `OnReaderClosed`.
- Statistical charset detection and tolerant decoding are foreign libraries. They are inputs: the detector's verdict (`Sample`) and a decode function per file (`BookFile.read`).
- The file system and JSON are abstract values (`BooksDir`, `ConfigFile`). A JSON dump followed by a load is taken to give back the same settings. The key order of the written file is not modelled.
- `Config.FillMissing` visits the default keys in an unspecified order, not in the dictionary's insertion order. The result is the same map either way.
- `Config.Load` treats every unusable file as `Corrupt` and returns the defaults. Three cases differ in Python:
  - A file that is not valid UTF-8 makes `json.load` raise `UnicodeDecodeError`. That is not among the caught exceptions, so it escapes `load_settings` and the main window's constructor.
  - A top-level JSON array that holds every default key as an element is returned as it is.
  - A top-level JSON string that contains every default key as a substring is returned as it is.
- `Config.ConfigHandler.LoadSettings` does not model a configuration file that exists but cannot be opened. Python lets that `OSError` escape.
- `Text.Lower` maps only ASCII letters. Every string that reaches `.lower()` here is an ASCII combo-box text or an encoding name.
- `Reader.ReaderView.UpdateDisplay` keeps the list of rows. It does not model the label text, which is the rows joined with `"\n"`.
- `Reader.ReaderView.constructor` requires positive `chars_per_line` and `lines_per_page`. The settings form's spin boxes guarantee this (1..20 and 10..100). With zero characters or lines per page, the page size is 0. Python then slices an empty page at every offset, so `update_display` shows only `(已到末尾)`, and both page turns leave the offset where it is.
- The reader's font size, colours and opacity are not modelled. They only style the label.
- `Window.StartIndex` reads a progress entry that is not an integer as 0. Python would hand that value to the reader unchanged. It also reads a `progress` value that is not an object as 0. Python raises `AttributeError` from `.get` there.
- `Window.RecordProgress` replaces a `progress` entry that is not an object with a new object. Python would raise `TypeError` there.
- `Window.MainWindow.StartReading` replaces any earlier reader. The earlier window would stay open on screen.
- `Window.PlanReading` and `Window.MainWindow.StartReading` report only that no reader opened. They drop the loader's error message, which `start_reading` only prints to the console. The other `print` calls are console output only and are not modelled: the placeholder message and the "saving progress" line in `on_reader_closed`.
- `Novels.GetAllBooksNames` models a books directory only as listed or missing. A directory that exists but cannot be listed makes `os.listdir` raise a `PermissionError` or another `OSError`, and only `FileNotFoundError` is caught. That error escapes `load_books_to_selector` and the main window's constructor, and the model does not represent it.
- `Config.ConfigHandler.SaveSettings` always stores the settings. A failed write is not modelled: a read-only config file or directory makes `open(..., 'w')` raise an `OSError`, which Python lets escape `save_settings`, `load_settings` and `on_reader_closed`. The contracts of `LoadSettings` and `Window.MainWindow.OnReaderClosed` inherit this.
