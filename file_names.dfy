/**
 * `getFileName` from src/utils.ts: append an extension (".json" by default)
 * to a file name unless the name already ends with it. The original decides
 * "already ends with it" by testing the regular expression `(\<ext>)$`, in
 * which only the leading dot of the extension is escaped.
 */
module FileNames {

  const DefaultExtension: string := ".json"

  /** Characters that mean something other than themselves in a JavaScript regular expression. */
  predicate IsRegexSyntax(c: char) {
    c in "\\^$.|?*+()[]{}"
  }

  /**
   * An extension for which the pattern `(\<ext>)$` matches the extension's own
   * characters literally: a dot (escaped by the pattern) followed by ordinary
   * characters.
   */
  predicate PlainExtension(ext: string) {
    |ext| >= 1 && ext[0] == '.' && forall i :: 1 <= i < |ext| ==> !IsRegexSyntax(ext[i])
  }

  predicate EndsWith(s: string, suffix: string) {
    |suffix| <= |s| && s[|s| - |suffix|..] == suffix
  }

  /**
   * `new RegExp("(\\" + ext + ")$").test(s)` for a plain extension: some
   * occurrence of the extension ends exactly at the end of s (without the `m`
   * flag, `$` matches only at the end of the input).
   */
  predicate PatternTest(s: string, ext: string) {
    exists p :: 0 <= p <= |s| && s[p..] == ext
  }

  /** The pattern test is exactly a suffix check. */
  lemma PatternTestIsSuffix(s: string, ext: string)
    ensures PatternTest(s, ext) <==> EndsWith(s, ext)
  {
    if EndsWith(s, ext) {
      assert s[|s| - |ext|..] == ext;
    }
  }

  function GetFileName(fileName: string, ext: string := DefaultExtension): (r: string)
    requires PlainExtension(ext)
    ensures EndsWith(fileName, ext) ==> r == fileName
    ensures !EndsWith(fileName, ext) ==> r == fileName + ext
    ensures EndsWith(r, ext)
    ensures |fileName| <= |r| && r[..|fileName|] == fileName
    ensures |r| == |fileName| || |r| == |fileName| + |ext|
  {
    PatternTestIsSuffix(fileName, ext);
    fileName + (if PatternTest(fileName, ext) then "" else ext)
  }

  /** A name that has been given the extension keeps it unchanged. */
  lemma GetFileNameIdempotent(fileName: string, ext: string)
    requires PlainExtension(ext)
    ensures GetFileName(GetFileName(fileName, ext), ext) == GetFileName(fileName, ext)
  {
  }

  /** The default extension is a plain one. */
  lemma DefaultExtensionIsPlain()
    ensures PlainExtension(DefaultExtension)
  {
  }
}
