/**
 * The two small helpers shared by both handler revisions: the upload whitelist
 * `isValidFileType` and the log helper `truncateString`.
 */
module FileUtil {

  /** The accepted extensions, lower case, in the order the loop tries them. */
  const ValidExtensions: seq<string> := [".pdf", ".jpg", ".jpeg", ".png"]

  /** No character of `s` is a dot or a path separator. */
  predicate NoDotOrSlash(s: string) {
    forall i :: 0 <= i < |s| ==> s[i] != '.' && s[i] != '/'
  }

  /**
   * `filepath.Ext` with Unix separators: the suffix that starts at the last dot of the
   * final path element, or "" when that element has no dot.
   */
  function Ext(path: string): (ext: string)
    ensures |ext| <= |path| && ext == path[|path| - |ext|..]
    ensures ext != "" ==> ext[0] == '.' && NoDotOrSlash(ext[1..])
    ensures ext == "" ==> forall i :: 0 <= i < |path| && path[i] == '.' ==> '/' in path[i + 1..]
  {
    if path == [] then ""
    else
      var c := path[|path| - 1];
      if c == '/' then ""
      else if c == '.' then "."
      else
        var e := Ext(path[..|path| - 1]);
        if e == "" then "" else e + [c]
  }

  /** One character as `strings.ToLower` maps it, for the ASCII letters it matters for here. */
  function LowerChar(c: char): char {
    if 'A' <= c <= 'Z' then (c as int + 32) as char else c
  }

  /** `strings.ToLower`, character by character. */
  function ToLower(s: string): (t: string)
    ensures |t| == |s|
    ensures forall i :: 0 <= i < |s| ==> t[i] == LowerChar(s[i])
  {
    if s == [] then [] else ToLower(s[..|s| - 1]) + [LowerChar(s[|s| - 1])]
  }

  /** The loop over `validExtensions`, returning as soon as one equals the lower-cased extension. */
  method IsValidFileType(filename: string) returns (valid: bool)
    ensures valid <==> ToLower(Ext(filename)) in ValidExtensions
  {
    var ext := ToLower(Ext(filename));
    for i := 0 to |ValidExtensions|
      invariant ext !in ValidExtensions[..i]
    {
      if ext == ValidExtensions[i] {
        return true;
      }
    }
    return false;
  }

  /** `filename` ends in `e`, ignoring case. */
  predicate EndsInIgnoringCase(filename: string, e: string) {
    |e| <= |filename| && ToLower(filename[|filename| - |e|..]) == e
  }

  /** Independent reading of the whitelist: the name ends, ignoring case, in an accepted extension. */
  predicate HasValidSuffix(filename: string) {
    exists i :: 0 <= i < |ValidExtensions| && EndsInIgnoringCase(filename, ValidExtensions[i])
  }

  /** A dot followed by at least one character, none of them a dot or a separator. */
  predicate Dotted(e: string) {
    |e| >= 2 && e[0] == '.' && NoDotOrSlash(e[1..])
  }

  /** A dotted suffix with no further dot or separator is exactly what `Ext` returns. */
  lemma {:induction false} ExtOfSuffix(path: string, k: nat)
    requires 0 < k <= |path|
    requires path[|path| - k] == '.' && NoDotOrSlash(path[|path| - k + 1..])
    ensures Ext(path) == path[|path| - k..]
  {
    if k > 1 {
      var init := path[..|path| - 1];
      assert init[|init| - (k - 1)] == '.';
      assert init[|init| - (k - 1) + 1..] == path[|path| - k + 1..|path| - 1];
      ExtOfSuffix(init, k - 1);
      assert path[|path| - k..] == init[|init| - (k - 1)..] + [path[|path| - 1]];
    }
  }

  /** Every accepted extension is a dot followed by letters. */
  lemma ExtensionShape(i: nat)
    requires i < |ValidExtensions|
    ensures Dotted(ValidExtensions[i])
  {
  }

  /** Lower-casing never turns another character into a dot or a separator. */
  lemma {:induction false} LowerKeepsShape(s: string)
    requires Dotted(ToLower(s))
    ensures s[0] == '.' && NoDotOrSlash(s[1..])
  {
    var low := ToLower(s);
    assert low[0] == LowerChar(s[0]);
    forall i | 0 <= i < |s| - 1
      ensures s[1..][i] != '.' && s[1..][i] != '/'
    {
      assert low[1..][i] == LowerChar(s[i + 1]);
    }
  }

  /** A name always ends, ignoring case, in its own lower-cased extension. */
  lemma {:induction false} EndsInOwnExtension(filename: string)
    ensures EndsInIgnoringCase(filename, ToLower(Ext(filename)))
  {
    var ext := Ext(filename);
    assert filename[|filename| - |ext|..] == ext;
  }

  /** A name whose lower-cased extension is accepted ends in that extension, ignoring case. */
  lemma {:induction false} AcceptedExtensionIsSuffix(filename: string)
    requires ToLower(Ext(filename)) in ValidExtensions
    ensures HasValidSuffix(filename)
  {
    EndsInOwnExtension(filename);
    var i :| 0 <= i < |ValidExtensions| && ValidExtensions[i] == ToLower(Ext(filename));
  }

  /** A name that ends, ignoring case, in a dotted name has it as its lower-cased extension. */
  lemma {:induction false} DottedSuffixIsExt(filename: string, e: string)
    requires Dotted(e) && EndsInIgnoringCase(filename, e)
    ensures ToLower(Ext(filename)) == e
  {
    var k := |e|;
    var suffix := filename[|filename| - k..];
    LowerKeepsShape(suffix);
    assert filename[|filename| - k + 1..] == suffix[1..];
    ExtOfSuffix(filename, k);
  }

  /** A name that ends, ignoring case, in an accepted extension has that extension. */
  lemma {:induction false} ValidSuffixIsAccepted(filename: string)
    requires HasValidSuffix(filename)
    ensures ToLower(Ext(filename)) in ValidExtensions
  {
    var i :| 0 <= i < |ValidExtensions| && EndsInIgnoringCase(filename, ValidExtensions[i]);
    ExtensionShape(i);
    DottedSuffixIsExt(filename, ValidExtensions[i]);
  }

  /** The whitelist check accepts exactly the names that end in an accepted extension, in any case. */
  lemma {:induction false} ValidFileTypeBySuffix(filename: string)
    ensures ToLower(Ext(filename)) in ValidExtensions <==> HasValidSuffix(filename)
  {
    if ToLower(Ext(filename)) in ValidExtensions {
      AcceptedExtensionIsSuffix(filename);
    }
    if HasValidSuffix(filename) {
      ValidSuffixIsAccepted(filename);
    }
  }

  /** An upper-case extension is accepted: `"test.PDF"` passes the whitelist. */
  lemma UpperCaseExtensionAccepted()
    ensures ToLower(Ext("test.PDF")) in ValidExtensions
  {
    assert "test.PDF"[4..] == ".PDF";
    assert ToLower(".PDF") == ".pdf" == ValidExtensions[0];
    assert EndsInIgnoringCase("test.PDF", ValidExtensions[0]);
    ValidSuffixIsAccepted("test.PDF");
  }

  /** A name without a dot has no extension, so `"noextension"` fails the whitelist. */
  lemma NoExtensionRejected()
    ensures Ext("noextension") == ""
    ensures ToLower(Ext("noextension")) !in ValidExtensions
  {
    NoDotNoExt("noextension");
    assert ToLower("") == "";
  }

  /** A name with no dot at all has no extension. */
  lemma NoDotNoExt(path: string)
    requires forall i :: 0 <= i < |path| ==> path[i] != '.'
    ensures Ext(path) == ""
  {
  }

  /**
   * `truncateString`: the string itself when it has at most `maxLen` characters, else its first
   * `maxLen` characters followed by "...". A negative `maxLen` makes Go's slice panic, so the
   * bound is a natural number.
   */
  function TruncateString(s: string, maxLen: nat): (t: string)
    ensures |t| <= maxLen + 3
    ensures |s| <= maxLen ==> t == s
    ensures |s| > maxLen ==> |t| == maxLen + 3 && t[..maxLen] == s[..maxLen] && t[maxLen..] == "..."
  {
    if |s| <= maxLen then s else s[..maxLen] + "..."
  }

  /** The cases of the truncation test. */
  lemma TruncateExamples()
    ensures TruncateString("Hello World", 5) == "Hello..."
    ensures TruncateString("Short", 10) == "Short"
    ensures TruncateString("", 5) == ""
    ensures TruncateString("Exactly", 7) == "Exactly"
    ensures TruncateString("Test", 18) == "Test"
  {
  }
}
