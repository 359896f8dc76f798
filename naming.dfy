/** The two names derived from a course title: the download file name
    (`title.replace(/[^a-zA-Z0-9]/g, '_') + "_SCORM.zip"`) and the manifest identifier
    (`"com.scormai." + title.replace(/\s/g, '_')`). Both regular expressions are applied
    by JavaScript to the UTF-16 code units of the title. */
module Naming {
  import opened Text

  // ---------------------------------------------------------------------------
  // Download file name

  /** The code unit of one of `A`-`Z`, `a`-`z`, `0`-`9`. */
  predicate IsAsciiAlnum(u: CodeUnit) {
    (0x30 <= u <= 0x39) || (0x41 <= u <= 0x5A) || (0x61 <= u <= 0x7A)
  }

  const Underscore: CodeUnit := 0x5F

  /** `.replace(/[^a-zA-Z0-9]/g, '_')`: a map over the code units. */
  function SanitizeUnits(us: seq<CodeUnit>): (r: seq<CodeUnit>) {
    seq(|us|, k requires 0 <= k < |us| => if IsAsciiAlnum(us[k]) then us[k] else Underscore)
  }

  /** The sanitised text holds only `[A-Za-z0-9_]`. */
  lemma SanitizeUnitsSafe(us: seq<CodeUnit>)
    ensures forall k :: 0 <= k < |us| ==> IsAsciiAlnum(SanitizeUnits(us)[k]) || SanitizeUnits(us)[k] == Underscore
  {
  }

  /** Sanitising twice is sanitising once. */
  lemma SanitizeUnitsIdempotent(us: seq<CodeUnit>)
    ensures SanitizeUnits(SanitizeUnits(us)) == SanitizeUnits(us)
  {
  }

  /** A title made only of ASCII letters and digits is kept as it is. */
  lemma SanitizeUnitsKeepsAlnum(us: seq<CodeUnit>)
    requires forall k :: 0 <= k < |us| ==> IsAsciiAlnum(us[k])
    ensures SanitizeUnits(us) == us
  {
  }

  const FileNameSuffix: string := "_SCORM.zip"

  /** `_SCORM.zip` as code units. */
  const FileNameSuffixUnits: seq<CodeUnit> := [0x5F, 0x53, 0x43, 0x4F, 0x52, 0x4D, 0x2E, 0x7A, 0x69, 0x70]

  lemma SuffixUnitsEncodeSuffix()
    ensures Utf16(FileNameSuffix) == FileNameSuffixUnits
  {
    Utf16Bmp(FileNameSuffix);
  }

  /** The name passed to `saveAs` by `downloadSCORMPackage`, as a JavaScript string. */
  function FileName(title: string): seq<CodeUnit> {
    SanitizeUnits(Utf16(title)) + FileNameSuffixUnits
  }

  /** The file name is the sanitised title, unit for unit, followed by `_SCORM.zip`. */
  lemma FileNameShape(title: string)
    ensures |FileName(title)| == |Utf16(title)| + |FileNameSuffix|
    ensures FileName(title)[..|Utf16(title)|] == SanitizeUnits(Utf16(title))
    ensures FileName(title)[|Utf16(title)|..] == Utf16(FileNameSuffix)
  {
    SuffixUnitsEncodeSuffix();
  }

  predicate IsAsciiAlnumChar(c: char) {
    ('0' <= c <= '9') || ('A' <= c <= 'Z') || ('a' <= c <= 'z')
  }

  /** Sanitising a basic-plane title, character by character. */
  function SanitizeBmp(s: string): (r: string)
    ensures |r| == |s|
    ensures forall k :: 0 <= k < |s| ==> r[k] == (if IsAsciiAlnumChar(s[k]) then s[k] else '_')
  {
    seq(|s|, k requires 0 <= k < |s| => if IsAsciiAlnumChar(s[k]) then s[k] else '_')
  }

  /** For a title without characters outside the basic plane, the file name is the
      encoding of the title sanitised character by character. */
  lemma FileNameOfBmp(title: string)
    requires forall k :: 0 <= k < |title| ==> title[k] as int < 0x1_0000
    ensures FileName(title) == Utf16(SanitizeBmp(title) + FileNameSuffix)
  {
    var us := Utf16(title);
    Utf16Bmp(title);
    var t := SanitizeBmp(title);
    assert forall k :: 0 <= k < |t| ==> t[k] as int < 0x1_0000;
    Utf16Bmp(t);
    Utf16Append(t, FileNameSuffix);
    SuffixUnitsEncodeSuffix();
    assert SanitizeUnits(us) == Utf16(t);
  }

  // ---------------------------------------------------------------------------
  // Manifest identifier

  /** `.replace(/\s/g, '_')` on characters. */
  function SpacesToUnderscores(s: string): string {
    seq(|s|, k requires 0 <= k < |s| => if IsJsSpace(s[k]) then '_' else s[k])
  }

  const IdentifierPrefix: string := "com.scormai."

  /** The `identifier` attribute of the manifest root. */
  function ManifestIdentifier(title: string): string {
    IdentifierPrefix + SpacesToUnderscores(title)
  }

  /** The identifier is `com.scormai.` and then the title with each white-space
      character replaced by `_`: same length, no white space left, all else in place. */
  lemma ManifestIdentifierShape(title: string)
    ensures ManifestIdentifier(title)[..|IdentifierPrefix|] == IdentifierPrefix
    ensures |ManifestIdentifier(title)| == |IdentifierPrefix| + |title|
    ensures forall k :: |IdentifierPrefix| <= k < |ManifestIdentifier(title)| ==> !IsJsSpace(ManifestIdentifier(title)[k])
    ensures forall k :: 0 <= k < |title| && !IsJsSpace(title[k]) ==> ManifestIdentifier(title)[|IdentifierPrefix| + k] == title[k]
  {
  }

  /** A title without white space is used unchanged. */
  lemma SpacesToUnderscoresKeeps(s: string)
    requires forall k :: 0 <= k < |s| ==> !IsJsSpace(s[k])
    ensures SpacesToUnderscores(s) == s
  {
  }

  /** The regular expression as JavaScript runs it: one UTF-16 code unit at a time. */
  function SpaceUnitsToUnderscores(us: seq<CodeUnit>): seq<CodeUnit> {
    if us == [] then []
    else [if IsJsSpaceCode(us[0]) then Underscore else us[0]] + SpaceUnitsToUnderscores(us[1..])
  }

  lemma {:induction false} SpaceUnitsAppend(a: seq<CodeUnit>, b: seq<CodeUnit>)
    ensures SpaceUnitsToUnderscores(a + b) == SpaceUnitsToUnderscores(a) + SpaceUnitsToUnderscores(b)
  {
    if a == [] {
      assert a + b == b;
    } else {
      assert (a + b)[1..] == a[1..] + b;
      SpaceUnitsAppend(a[1..], b);
    }
  }

  /** Every white-space character is a single basic-plane code unit and no surrogate is
      white space, so replacing characters and replacing code units agree. */
  lemma {:induction false} SpacesToUnderscoresOnCodeUnits(s: string)
    ensures Utf16(SpacesToUnderscores(s)) == SpaceUnitsToUnderscores(Utf16(s))
  {
    if s != [] {
      var c := s[0];
      var r := SpacesToUnderscores(s);
      assert r == [if IsJsSpace(c) then '_' else c] + SpacesToUnderscores(s[1..]);
      assert r[0] == (if IsJsSpace(c) then '_' else c) && r[1..] == SpacesToUnderscores(s[1..]);
      SpacesToUnderscoresOnCodeUnits(s[1..]);
      SpaceUnitsAppend(Utf16Char(c), Utf16(s[1..]));
      calc {
        Utf16(r);
        Utf16Char(r[0]) + Utf16(r[1..]);
        { assert Utf16Char(r[0]) == SpaceUnitsToUnderscores(Utf16Char(c)); }
        SpaceUnitsToUnderscores(Utf16Char(c)) + SpaceUnitsToUnderscores(Utf16(s[1..]));
        SpaceUnitsToUnderscores(Utf16(s));
      }
    }
  }
}

/** Concrete titles and the names they produce. */
module NamingExamples {
  import opened Text
  import opened Naming

  lemma SanitizeIntroExample()
    ensures SanitizeBmp("Intro: Algebra!") + FileNameSuffix == "Intro__Algebra__SCORM.zip"
  {
  }

  lemma IntroIsBmp()
    ensures forall k :: 0 <= k < |"Intro: Algebra!"| ==> "Intro: Algebra!"[k] as int < 0x1_0000
  {
  }

  /** `"Intro: Algebra!"` is saved as `Intro__Algebra__SCORM.zip`. */
  lemma FileNameExample()
    ensures FileName("Intro: Algebra!") == Utf16("Intro__Algebra__SCORM.zip")
  {
    IntroIsBmp();
    FileNameOfBmp("Intro: Algebra!");
    SanitizeIntroExample();
  }

  lemma EmojiUnits()
    ensures SanitizeUnits(Utf16("\U{1F4D8}")) == [Underscore, Underscore]
  {
    assert Utf16("\U{1F4D8}") == Utf16Char('\U{1F4D8}');
  }

  /** A character outside the basic plane is two code units and so becomes two
      underscores: a one-emoji title gives `___SCORM.zip`. */
  lemma FileNameAstralExample()
    ensures FileName("\U{1F4D8}") == Utf16("___SCORM.zip")
  {
    EmojiUnits();
    Utf16Bmp("__");
    Utf16Append("__", FileNameSuffix);
    SuffixUnitsEncodeSuffix();
    assert "__" + FileNameSuffix == "___SCORM.zip";
  }

  /** The title "Photosynthesis" gives the identifier `com.scormai.Photosynthesis`. */
  lemma ManifestIdentifierExample()
    ensures ManifestIdentifier("Photosynthesis") == "com.scormai." + "Photosynthesis"
  {
  }
}
