/** The book loader: lists the books, chooses a text encoding and turns a
    book file into one long whitespace-free string. Files, the charset
    detector and the codec are abstract inputs. */
module Novels {
  import opened Options
  import opened Seqs
  import opened Text

  /** The characters Python's `\s` matches in a `str` pattern
      (the characters for which `str.isspace()` holds). */
  predicate IsWhitespace(c: char)
  {
    || '\U{0009}' <= c <= '\U{000D}'
    || '\U{001C}' <= c <= '\U{0020}'
    || c == '\U{0085}' || c == '\U{00A0}' || c == '\U{1680}'
    || '\U{2000}' <= c <= '\U{200A}'
    || c == '\U{2028}' || c == '\U{2029}' || c == '\U{202F}' || c == '\U{205F}'
    || c == '\U{3000}'
  }

  /** A character the normalisation keeps. */
  predicate IsKept(c: char) { !IsWhitespace(c) }

  /** A directory entry the book list shows. */
  predicate IsTxtName(name: string) { EndsWith(name, ".txt") }

  /** What `dict.get('encoding', 'utf-8')` finds in the detector's verdict. */
  datatype Verdict = NoEncodingKey | NullEncoding | Encoding(name: string)

  /** Reading the first 4096 bytes and running the detector on them: a failure
      `_detect_encoding` catches (the file is gone, or the detector raises
      IndexError), a verdict, or an error it does not catch (opening raises
      another OSError, as for a directory named `x.txt` or an unreadable file). */
  datatype Sample = SampleFailed | Detected(verdict: Verdict) | OpenRaised(exception: string)

  /** Decoding the whole file with a given encoding, dropping undecodable
      bytes: the text, or the reason the open or the read failed. */
  datatype ReadOutcome = Decoded(text: string) | ReadFailed(reason: string)

  /** A book file, as far as the loader can observe it. */
  datatype BookFile = BookFile(sample: Sample, read: string -> ReadOutcome)

  /** The books directory: its listing (None when it is missing) and the files
      that exist in it, by file name. */
  datatype BooksDir = BooksDir(listing: Option<seq<string>>, files: map<string, BookFile>)

  /** The `(content, error)` pair the loader returns. */
  datatype Loaded = Loaded(content: Option<string>, error: Option<string>)

  const GbFamily: seq<string> := ["gb2312", "gb18030"]
  const NotFoundPrefix := "错误：找不到文件 "
  const ReadErrorPrefix := "打开或读取文件时出错: "

  /** `get_all_books_names`: the `.txt` entries of the listing, in listing order;
      nothing when the directory is missing. */
  function GetAllBooksNames(dir: BooksDir): (names: seq<string>)
    ensures dir.listing.None? ==> names == []
    ensures dir.listing.Some? ==> |names| <= |dir.listing.value|
    ensures forall n :: n in names <==> dir.listing.Some? && n in dir.listing.value && IsTxtName(n)
  {
    match dir.listing
    case None => []
    case Some(files) => Filter(files, IsTxtName)
  }

  /** Listing order is kept: the books of two consecutive parts of a listing are
      the books of the first part followed by those of the second. */
  lemma BookNamesKeepOrder(front: seq<string>, back: seq<string>)
    ensures GetAllBooksNames(BooksDir(Some(front + back), map[]))
         == GetAllBooksNames(BooksDir(Some(front), map[])) + GetAllBooksNames(BooksDir(Some(back), map[]))
  {
    FilterConcat(front, back, IsTxtName);
  }

  /** The mapping applied to the detector's answer: the GB2312/GB18030 family
      becomes "gbk", no name or an empty name becomes "utf-8", anything else is
      kept as the detector spelled it. */
  function ChooseEncoding(encoding: Option<string>): (name: string)
    ensures encoding.Some? && encoding.value != "" && Lower(encoding.value) in GbFamily ==> name == "gbk"
    ensures encoding.Some? && encoding.value != "" && Lower(encoding.value) !in GbFamily ==> name == encoding.value
    ensures encoding.None? || encoding.value == "" ==> name == "utf-8"
    ensures name != "" && Lower(name) !in GbFamily
  {
    assert Lower("gbk") == "gbk";
    assert Lower("utf-8") == "utf-8";
    if encoding.Some? && encoding.value != "" && Lower(encoding.value) in GbFamily then "gbk"
    else if encoding.Some? && encoding.value != "" then encoding.value
    else "utf-8"
  }

  /** Choosing is idempotent: a chosen name is never mapped again. */
  lemma ChooseEncodingIdempotent(encoding: Option<string>)
    ensures ChooseEncoding(Some(ChooseEncoding(encoding))) == ChooseEncoding(encoding)
  {
  }

  /** `_detect_encoding`: the encoding name the whole file is decoded with,
      or the exception that escapes it. */
  function DetectEncoding(sample: Sample): (r: Outcome<string>)
    ensures r.Raises? <==> sample.OpenRaised?
    ensures sample.OpenRaised? ==> r.exception == sample.exception
    ensures sample.SampleFailed? ==> r == Returns("utf-8")
    ensures sample.Detected? && sample.verdict.NoEncodingKey? ==> r == Returns("utf-8")
    ensures sample.Detected? && sample.verdict.Encoding? ==> r == Returns(ChooseEncoding(Some(sample.verdict.name)))
    ensures sample.Detected? && sample.verdict.NullEncoding? ==> r == Returns("utf-8")
    ensures r.Returns? ==> r.value != "" && Lower(r.value) !in GbFamily
  {
    match sample
    case SampleFailed => Returns("utf-8")
    case OpenRaised(exception) => Raises(exception)
    case Detected(verdict) =>
      var encoding := match verdict
                      case NoEncodingKey => Some("utf-8")
                      case NullEncoding => None
                      case Encoding(n) => Some(n);
      Returns(ChooseEncoding(encoding))
  }

  /** The `re.sub(r'\s+', '', content)` pass: every whitespace character deleted. */
  function Normalize(content: string): (r: string)
    ensures |r| <= |content|
    ensures forall c :: c in r ==> !IsWhitespace(c)
    ensures forall c :: c in r <==> c in content && !IsWhitespace(c)
  {
    Filter(content, IsKept)
  }

  /** Normalising twice is normalising once. */
  lemma NormalizeIdempotent(content: string)
    ensures Normalize(Normalize(content)) == Normalize(content)
  {
    FilterIdempotent(content, IsKept);
  }

  /** Text without whitespace is left unchanged. */
  lemma NormalizeKeepsClean(content: string)
    requires forall c :: c in content ==> !IsWhitespace(c)
    ensures Normalize(content) == content
  {
    FilterKeepsAll(content, IsKept);
  }

  /** Non-whitespace characters keep their relative order: normalising two
      consecutive parts separately and joining gives the whole normalised. */
  lemma NormalizeConcat(front: string, back: string)
    ensures Normalize(front + back) == Normalize(front) + Normalize(back)
  {
    FilterConcat(front, back, IsKept);
  }

  /** Each non-whitespace character occurs as often as in the input;
      no whitespace character occurs at all. */
  lemma NormalizeCounts(content: string, c: char)
    ensures multiset(Normalize(content))[c] == if IsWhitespace(c) then 0 else multiset(content)[c]
  {
    FilterCounts(content, IsKept, c);
  }

  /** `load_book_as_string`: the normalised text of a book or a message, or
      the exception that escapes `_detect_encoding` (it is called outside the
      `try` that turns read errors into messages). */
  function LoadBookAsString(dir: BooksDir, filename: string): (r: Outcome<Loaded>)
    ensures r.Returns? ==> r.value.content.Some? != r.value.error.Some?
    ensures r.Returns? && r.value.error.Some? ==> r.value.error.value != ""
    ensures r.Raises? <==> filename in dir.files && dir.files[filename].sample.OpenRaised?
    ensures filename !in dir.files ==>
              r.Returns? && r.value.error.Some? && EndsWith(r.value.error.value, filename)
    ensures filename in dir.files ==>
              var file := dir.files[filename];
              match DetectEncoding(file.sample)
              case Raises(exception) => r == Raises(exception)
              case Returns(encoding) =>
                match file.read(encoding)
                case Decoded(text) => r == Returns(Loaded(Some(Normalize(text)), None))
                case ReadFailed(reason) => r == Returns(Loaded(None, Some(ReadErrorPrefix + reason)))
    ensures r.Returns? && r.value.content.Some? ==> forall c :: c in r.value.content.value ==> !IsWhitespace(c)
  {
    if filename !in dir.files then
      var message := NotFoundPrefix + filename;
      assert message[|message| - |filename|..] == filename;
      Returns(Loaded(None, Some(message)))
    else
      var file := dir.files[filename];
      match DetectEncoding(file.sample)
      case Raises(exception) => Raises(exception)
      case Returns(encoding) =>
        match file.read(encoding)
        case Decoded(text) => Returns(Loaded(Some(Normalize(text)), None))
        case ReadFailed(reason) => Returns(Loaded(None, Some(ReadErrorPrefix + reason)))
  }
}
