/**
  `detect_file_type` of utils/files.py: the file type of an upload, from the
  MIME type that `mimetypes.guess_type` guesses for its name, else from the
  name's extension. The guess is a parameter here.
*/
module Files {
  import opened Wrappers

  /** The uploaded file; only its name is looked at. */
  datatype UploadedFile = UploadedFile(name: string)

  /** The extensions the fallback accepts; also the only types `detect_file_type` returns. */
  const KnownExtensions: seq<string> := ["json", "pdf", "csv"]

  /** Python's `needle in hay` on strings. */
  predicate Contains(hay: string, needle: string)
    decreases |hay|
  {
    |needle| <= |hay| && (hay[..|needle|] == needle || Contains(hay[1..], needle))
  }

  /** `needle` occurs in `hay` starting at position `i`. */
  predicate OccursAt(hay: string, needle: string, i: nat)
  {
    i + |needle| <= |hay| && hay[i..i + |needle|] == needle
  }

  /** `needle in hay` holds exactly when `needle` occurs at some position of `hay`. */
  lemma {:induction false} ContainsIffOccurs(hay: string, needle: string)
    ensures Contains(hay, needle) <==> exists i: nat :: OccursAt(hay, needle, i)
    decreases |hay|
  {
    if |needle| > |hay| {
      forall i: nat ensures !OccursAt(hay, needle, i) {
      }
    } else if hay[..|needle|] == needle {
      assert OccursAt(hay, needle, 0);
    } else {
      ContainsIffOccurs(hay[1..], needle);
      forall i: nat ensures OccursAt(hay, needle, i + 1) <==> OccursAt(hay[1..], needle, i) {
        if i + 1 + |needle| <= |hay| {
          var n := |needle|;
          var here, there := hay[i + 1..i + 1 + n], hay[1..][i..i + n];
          assert forall k | 0 <= k < n :: here[k] == there[k];
          assert here == there;
        }
      }
      forall i: nat | OccursAt(hay, needle, i) ensures i > 0 {
      }
      if Contains(hay, needle) {
        var j: nat :| OccursAt(hay[1..], needle, j);
        assert OccursAt(hay, needle, j + 1);
      }
      if exists i: nat :: OccursAt(hay, needle, i) {
        var i: nat :| OccursAt(hay, needle, i);
        assert OccursAt(hay[1..], needle, i - 1);
      }
    }
  }

  /** The lower-case form of a character, for the ASCII letters. */
  function LowerChar(c: char): char
  {
    if 'A' <= c <= 'Z' then (c as int - 'A' as int + 'a' as int) as char else c
  }

  /** `str.lower()`, on ASCII letters. */
  function Lower(s: string): (r: string)
    ensures |r| == |s|
    ensures forall i | 0 <= i < |s| :: r[i] == LowerChar(s[i])
  {
    if s == [] then [] else Lower(s[..|s| - 1]) + [LowerChar(s[|s| - 1])]
  }

  /** `s.split('.')[-1]`: the text after the last dot, or all of `s` when it has none. */
  function LastSegment(s: string): (r: string)
    ensures |r| <= |s| && r == s[|s| - |r|..]
    ensures '.' !in r
    ensures |r| == |s| || s[|s| - |r| - 1] == '.'
  {
    if s == [] then []
    else if s[|s| - 1] == '.' then []
    else
      var front := LastSegment(s[..|s| - 1]);
      assert s[..|s| - 1][|s| - 1 - |front|..] + [s[|s| - 1]] == s[|s| - 1 - |front|..];
      front + [s[|s| - 1]]
  }

  /** Lower-casing a string with one more character appends that character lower-cased. */
  lemma LowerSnoc(s: string, c: char)
    ensures Lower(s + [c]) == Lower(s) + [LowerChar(c)]
  {
    assert (s + [c])[..|s|] == s;
  }

  /** Lower-casing does not move dots, so it commutes with taking the last segment. */
  lemma {:induction false} LastSegmentOfLower(s: string)
    ensures LastSegment(Lower(s)) == Lower(LastSegment(s))
  {
    if s != [] {
      var init, last := s[..|s| - 1], s[|s| - 1];
      assert s == init + [last];
      LowerSnoc(init, last);
      var lowered := Lower(init) + [LowerChar(last)];
      assert lowered[..|lowered| - 1] == Lower(init);
      LastSegmentOfLower(init);
      if last != '.' {
        calc {
          LastSegment(lowered);
          LastSegment(Lower(init)) + [LowerChar(last)];
          Lower(LastSegment(init)) + [LowerChar(last)];
          { LowerSnoc(LastSegment(init), last); }
          Lower(LastSegment(init) + [last]);
        }
      }
    }
  }

  /** The MIME branch: json is tested before pdf, and pdf before csv. */
  function MimeFileType(mime: string): (r: Option<string>)
    ensures Contains(mime, "json") ==> r == Some("json")
    ensures !Contains(mime, "json") && Contains(mime, "pdf") ==> r == Some("pdf")
    ensures !Contains(mime, "json") && !Contains(mime, "pdf") && Contains(mime, "csv") ==> r == Some("csv")
    ensures r.None? <==> !Contains(mime, "json") && !Contains(mime, "pdf") && !Contains(mime, "csv")
    ensures r.Some? ==> r.value in KnownExtensions
  {
    if Contains(mime, "json") then Some("json")
    else if Contains(mime, "pdf") then Some("pdf")
    else if Contains(mime, "csv") then Some("csv")
    else None
  }

  /** The fallback branch: the lower-cased last segment of the name, when it is a known extension. */
  function ExtensionFileType(name: string): (r: Option<string>)
    ensures r.Some? <==> Lower(LastSegment(name)) in KnownExtensions
    ensures r.Some? ==> r.value == Lower(LastSegment(name))
    ensures r.Some? ==> r.value in KnownExtensions
  {
    var extension := Lower(LastSegment(name));
    if extension in KnownExtensions then Some(extension) else None
  }

  /**
    `detect_file_type(file)` where `guessed` is `mimetypes.guess_type(file.name)[0]`.
    A missing or empty guess is false in Python's `if file_type:`.
  */
  function DetectFileType(file: Option<UploadedFile>, guessed: Option<string>): (r: Option<string>)
    ensures file.None? ==> r == None
    ensures r.Some? ==> r.value in KnownExtensions
    ensures file.Some? && guessed.Some? && guessed.value != "" && MimeFileType(guessed.value).Some? ==>
              r == MimeFileType(guessed.value)
    ensures file.Some? && (guessed.None? || guessed.value == "" || MimeFileType(guessed.value).None?) ==>
              r == ExtensionFileType(file.value.name)
  {
    match file
    case None => None
    case Some(f) =>
      var fromMime := if guessed.Some? && guessed.value != "" then MimeFileType(guessed.value) else None;
      if fromMime.Some? then fromMime else ExtensionFileType(f.name)
  }

  /** A result is never `web`: web pages are not uploads. */
  lemma DetectFileTypeIsNeverWeb(file: Option<UploadedFile>, guessed: Option<string>)
    ensures DetectFileType(file, guessed) != Some("web")
  {
  }

  /** The extension is compared case-insensitively: names that lower-case alike get the same type. */
  lemma ExtensionIsCaseInsensitive(a: string, b: string, guessed: Option<string>)
    requires Lower(a) == Lower(b)
    ensures DetectFileType(Some(UploadedFile(a)), guessed) == DetectFileType(Some(UploadedFile(b)), guessed)
  {
    LastSegmentOfLower(a);
    LastSegmentOfLower(b);
  }

  /** The guess decides whenever it names one of the three types, whatever the name says. */
  lemma MimeTakesPrecedence(a: string, b: string, mime: string)
    requires mime != "" && MimeFileType(mime).Some?
    ensures DetectFileType(Some(UploadedFile(a)), Some(mime)) == DetectFileType(Some(UploadedFile(b)), Some(mime))
  {
  }
}
