/** `CacheFileMapper` and `FileMapper`: where the decoder keeps the tensor
    and the processed image it derives from an input image file. */
module FileMappers {
  import opened Wrappers
  import opened Paths

  const TensorSuffix: string := ".tensor"
  const PngSuffix: string := ".png"
  const Subfolder: string := "_cached"

  /** Maps image files into the cache folder `cacheHome`. */
  datatype CacheFileMapper = CacheFileMapper(cacheHome: Path)
  {
    /** `cacheHome` resolved against the image's directory, holding the
        image's file name followed by `suffix`. */
    function CachedFile(imageFile: Path, suffix: string): Path
    {
      ResolveSibling(imageFile, Resolve(cacheHome, Get([FileNameString(imageFile) + suffix])))
    }

    /** `getTensorFile(imageFile)`. */
    function GetTensorFile(imageFile: Path): (r: Path)
      ensures r.names != [] && FileNameString(r) == FileNameString(imageFile) + TensorSuffix
    {
      CachedFileLayout(this, imageFile, TensorSuffix);
      CachedFile(imageFile, TensorSuffix)
    }

    /** `getProcessedImageFile(imageFile)`. */
    function GetProcessedImageFile(imageFile: Path): (r: Path)
      ensures r.names != [] && FileNameString(r) == FileNameString(imageFile) + PngSuffix
    {
      CachedFileLayout(this, imageFile, PngSuffix);
      CachedFile(imageFile, PngSuffix)
    }
  }

  /** Where a cached file lands: an absolute `cacheHome` is used as is,
      whatever the image's directory; a relative one is taken inside the
      image's directory, or on its own when the image path has no parent. */
  lemma CachedFileLayout(m: CacheFileMapper, imageFile: Path, suffix: string)
    ensures var r := m.CachedFile(imageFile, suffix);
            var name := FileNameString(imageFile) + suffix;
            r.names != [] && r.names[|r.names| - 1] == name
            && (m.cacheHome.absolute ==> r == Path(true, m.cacheHome.names + [name]))
            && (!m.cacheHome.absolute && GetParent(imageFile).Some? ==>
                  var parent := GetParent(imageFile).value;
                  r == Path(parent.absolute, parent.names + m.cacheHome.names + [name]))
            && (!m.cacheHome.absolute && GetParent(imageFile).None? ==>
                  r == Path(false, m.cacheHome.names + [name]))
  {
  }

  /** The tensor file and the processed image are in the same directory and
      their names differ only in the suffix. */
  lemma CachedFilesAreSiblings(m: CacheFileMapper, imageFile: Path)
    ensures var t, p := m.GetTensorFile(imageFile), m.GetProcessedImageFile(imageFile);
            t.absolute == p.absolute && |t.names| == |p.names|
            && t.names[..|t.names| - 1] == p.names[..|p.names| - 1]
            && GetParent(t) == GetParent(p)
            && t.names[|t.names| - 1] == FileNameString(imageFile) + TensorSuffix
            && p.names[|p.names| - 1] == FileNameString(imageFile) + PngSuffix
  {
    CachedFileLayout(m, imageFile, TensorSuffix);
    CachedFileLayout(m, imageFile, PngSuffix);
    var t, p := m.GetTensorFile(imageFile), m.GetProcessedImageFile(imageFile);
    assert t.names[..|t.names| - 1] == p.names[..|p.names| - 1];
  }

  /** Maps image files into the `_cached` folder next to them. */
  datatype FileMapper = FileMapper
  {
    /** `_cached/<file name><suffix>` resolved against the image's
        directory. */
    function SubfolderFile(imageFile: Path, suffix: string): Path
    {
      ResolveSibling(imageFile, Get([Subfolder, FileNameString(imageFile) + suffix]))
    }

    /** `getTensorFile(imageFile)`. */
    function GetTensorFile(imageFile: Path): (r: Path)
      ensures r.names != [] && FileNameString(r) == FileNameString(imageFile) + TensorSuffix
    {
      SubfolderFileLayout(this, imageFile, TensorSuffix);
      SubfolderFile(imageFile, TensorSuffix)
    }

    /** `getProcessedImageFile(imageFile)`. */
    function GetProcessedImageFile(imageFile: Path): (r: Path)
      ensures r.names != [] && FileNameString(r) == FileNameString(imageFile) + PngSuffix
    {
      SubfolderFileLayout(this, imageFile, PngSuffix);
      SubfolderFile(imageFile, PngSuffix)
    }
  }

  /** The mapped file is `parent/_cached/<name><suffix>`, or
      `_cached/<name><suffix>` when the image path has no parent. */
  lemma SubfolderFileLayout(m: FileMapper, imageFile: Path, suffix: string)
    ensures var r := m.SubfolderFile(imageFile, suffix);
            var name := FileNameString(imageFile) + suffix;
            (GetParent(imageFile).Some? ==>
               var parent := GetParent(imageFile).value;
               r == Path(parent.absolute, parent.names + [Subfolder, name]))
            && (GetParent(imageFile).None? ==> r == Path(false, [Subfolder, name]))
            && r.names != [] && r.names[|r.names| - 1] == name
  {
  }

  /** The two files of `FileMapper` share the `_cached` directory and differ
      only in the suffix. */
  lemma SubfolderFilesAreSiblings(m: FileMapper, imageFile: Path)
    ensures var t, p := m.GetTensorFile(imageFile), m.GetProcessedImageFile(imageFile);
            GetParent(t) == GetParent(p) && GetParent(t).Some?
            && FileNameString(GetParent(t).value) == Subfolder
  {
    SubfolderFileLayout(m, imageFile, TensorSuffix);
    SubfolderFileLayout(m, imageFile, PngSuffix);
    var t, p := m.GetTensorFile(imageFile), m.GetProcessedImageFile(imageFile);
    assert t.names[..|t.names| - 1] == p.names[..|p.names| - 1];
  }
}
