/** The file-name and file-size helpers shown next to a shared file. */
module FileUtil {
  import opened JavaLang

  /** `getFileExtension`: the text after the last dot, unless there is no dot, the last dot
      starts the name (a hidden file) or ends it. */
  function FileExtension(fileName: string): (ext: string)
    ensures '.' !in ext
    ensures ext != "" ==> exists base :: base != "" && fileName == base + "." + ext
  {
    var lastDot := LastIndexOf(fileName, '.');
    if lastDot > 0 && lastDot < |fileName| - 1 then
      var ext := fileName[lastDot + 1..];
      assert fileName == fileName[..lastDot] + "." + ext;
      ext
    else ""
  }

  /** The extension is empty exactly in the three cases the guard rules out. */
  lemma NoExtensionCases(fileName: string)
    ensures FileExtension(fileName) == "" <==>
      var lastDot := LastIndexOf(fileName, '.');
      lastDot == -1 || lastDot == 0 || lastDot == |fileName| - 1
  {
  }

  /** Appending "." and a dot-free, non-empty extension to a non-empty name gives that
      extension back, whatever dots the name itself holds. */
  lemma ExtensionOfAppended(base: string, ext: string)
    requires base != "" && ext != "" && '.' !in ext
    ensures FileExtension(base + "." + ext) == ext
  {
    var s := base + "." + ext;
    LastIndexOfAppended(base, ext);
    assert s[|base| + 1..] == ext;
  }

  /** In `base + "." + ext` with no dot in `ext`, the last dot is the one before `ext`. */
  lemma {:induction false} LastIndexOfAppended(base: string, ext: string)
    requires '.' !in ext
    ensures LastIndexOf(base + "." + ext, '.') == |base|
  {
    var s := base + "." + ext;
    if ext == [] {
      assert s[|s| - 1] == '.';
    } else {
      LastIndexOfAppended(base, ext[..|ext| - 1]);
      assert s[..|s| - 1] == base + "." + ext[..|ext| - 1];
      assert s[|s| - 1] == ext[|ext| - 1];
    }
  }

  /** A name without a dot, or whose only dot comes first, has no extension. */
  lemma HiddenFileHasNoExtension(name: string)
    requires '.' !in name
    ensures FileExtension(name) == ""
    ensures FileExtension("." + name) == ""
  {
    LastIndexOfAppended("", name);
    assert "." + name == "" + "." + name;
  }

  /** `formatFileSize` below 1024: the size in decimal followed by " B". */
  function FormatFileSize(size: int): (text: string)
    requires size < 1024
  {
    IntToString(size) + " B"
  }

  /** The byte-count text reads back as the size. */
  lemma FormatFileSizeReadsBack(size: int)
    requires IntMin <= size < 1024
    ensures var text := FormatFileSize(size);
      |text| >= 3 && text[|text| - 2..] == " B" && ParseInt(text[..|text| - 2]) == Some(size)
  {
    var text := FormatFileSize(size);
    assert text[..|text| - 2] == IntToString(size);
    ParseIntToString(size);
  }
}
