/**
 * CodeTemplate.OnWillCreateAsset: when the editor creates a script asset,
 * its file is rewritten with the creation date and the author filled in.
 *
 * The string steps are functions. Reading and writing the file and the
 * AssetDatabase refresh act on an `AssetFiles` object whose `files` map is
 * the disk. The date string (DateTime.Now formatted with "d") and
 * Application.dataPath are parameters.
 */
module CodeTemplate {
  import opened Wrappers

  /** The exceptions the method can raise. */
  datatype Exception =
    | ArgumentOutOfRange   // Substring given a negative index or length
    | FileNotFound         // File.ReadAllText on a path that does not exist

  // ---------------------------------------------------------------------
  // String.LastIndexOf and String.Replace
  // ---------------------------------------------------------------------

  /** Whether `t` occurs in `s` at position `i`. */
  predicate OccursAt(s: string, t: string, i: int)
  {
    0 <= i && i + |t| <= |s| && s[i..i + |t|] == t
  }

  /** Whether `t` occurs nowhere in `s`. */
  ghost predicate Free(s: string, t: string)
  {
    forall i :: !OccursAt(s, t, i)
  }

  /** String.LastIndexOf: the last position where `t` occurs in `s`, or -1 when it occurs nowhere. */
  function LastIndexOf(s: string, t: string): (r: int)
    ensures r == -1 || OccursAt(s, t, r)
    ensures forall j :: r < j ==> !OccursAt(s, t, j)
    ensures r >= -1
    decreases |s|
  {
    if |s| < |t| then -1
    else if s[|s| - |t|..] == t then |s| - |t|
    else
      var r := LastIndexOf(s[..|s| - 1], t);
      assert forall j :: OccursAt(s, t, j) ==> OccursAt(s[..|s| - 1], t, j) by {
        forall j | OccursAt(s, t, j)
          ensures OccursAt(s[..|s| - 1], t, j)
        {
          assert s[..|s| - 1][j..j + |t|] == s[j..j + |t|];
        }
      }
      assert r != -1 ==> s[r..r + |t|] == s[..|s| - 1][r..r + |t|];
      r
  }

  /** LastIndexOf gives -1 exactly when `t` occurs nowhere in `s`. */
  lemma LastIndexOfAbsent(s: string, t: string)
    ensures LastIndexOf(s, t) == -1 <==> Free(s, t)
  {
  }

  /**
   * String.Replace: scanning left to right, each occurrence of `pat` is
   * replaced by `rep` and the scan resumes after it; the text put in is
   * not scanned again.
   */
  function ReplaceAll(s: string, pat: string, rep: string): string
    requires |pat| > 0
    decreases |s|
  {
    if |s| < |pat| then s
    else if s[..|pat|] == pat then rep + ReplaceAll(s[|pat|..], pat, rep)
    else [s[0]] + ReplaceAll(s[1..], pat, rep)
  }

  /** The pieces joined with `sep` between each two. */
  function Join(parts: seq<string>, sep: string): string
  {
    if parts == [] then ""
    else if |parts| == 1 then parts[0]
    else parts[0] + sep + Join(parts[1..], sep)
  }

  /**
   * The text between the occurrences of `pat` that Replace's scan finds:
   * the first piece is a prefix of `s`, and no piece contains `pat`.
   */
  function Split(s: string, pat: string): (r: seq<string>)
    requires |pat| > 0
    ensures |r| >= 1
    ensures |r[0]| <= |s| && r[0] == s[..|r[0]|]
    ensures forall k :: 0 <= k < |r| ==> Free(r[k], pat)
    decreases |s|
  {
    if |s| < |pat| then [s]
    else if s[..|pat|] == pat then [""] + Split(s[|pat|..], pat)
    else
      var r := Split(s[1..], pat);
      var head := [s[0]] + r[0];
      assert head == s[..|head|];
      assert Free(head, pat) by {
        forall i
          ensures !OccursAt(head, pat, i)
        {
          if i == 0 && |pat| <= |head| {
            assert head[..|pat|] == s[..|pat|];
          } else if 0 < i && i + |pat| <= |head| {
            assert head[i..i + |pat|] == r[0][i - 1..i - 1 + |pat|];
            assert !OccursAt(r[0], pat, i - 1);
          }
        }
      }
      [head] + r[1..]
  }

  /** Putting a character in front of the first piece puts it in front of the joined text. */
  lemma JoinConsHead(c: char, r: seq<string>, sep: string)
    requires |r| >= 1
    ensures Join([[c] + r[0]] + r[1..], sep) == [c] + Join(r, sep)
  {
    var q := [[c] + r[0]] + r[1..];
    assert q[1..] == r[1..];
  }

  /** Split is undone by joining with `pat`: the pieces and the occurrences make up the text. */
  lemma {:induction false} SplitRoundTrip(s: string, pat: string)
    requires |pat| > 0
    ensures Join(Split(s, pat), pat) == s
    decreases |s|
  {
    if |s| < |pat| {
    } else if s[..|pat|] == pat {
      SplitRoundTrip(s[|pat|..], pat);
      var r := Split(s[|pat|..], pat);
      assert ([""] + r)[1..] == r;
      assert s == pat + s[|pat|..];
    } else {
      SplitRoundTrip(s[1..], pat);
      JoinConsHead(s[0], Split(s[1..], pat), pat);
      assert s == [s[0]] + s[1..];
    }
  }

  /** Replace puts `rep` in place of every occurrence the scan finds and leaves the text between them as it was. */
  lemma {:induction false} ReplaceIsJoinOfSplit(s: string, pat: string, rep: string)
    requires |pat| > 0
    ensures ReplaceAll(s, pat, rep) == Join(Split(s, pat), rep)
    decreases |s|
  {
    if |s| < |pat| {
    } else if s[..|pat|] == pat {
      var r := Split(s[|pat|..], pat);
      ReplaceIsJoinOfSplit(s[|pat|..], pat, rep);
      assert Split(s, pat) == [""] + r;
      assert ([""] + r)[1..] == r;
      assert Join([""] + r, rep) == "" + rep + Join(r, rep);
    } else {
      var r := Split(s[1..], pat);
      ReplaceIsJoinOfSplit(s[1..], pat, rep);
      assert Split(s, pat) == [[s[0]] + r[0]] + r[1..];
      JoinConsHead(s[0], r, rep);
    }
  }

  /** Text in which `pat` occurs nowhere comes out of Replace unchanged. */
  lemma {:induction false} ReplaceAbsent(s: string, pat: string, rep: string)
    requires |pat| > 0 && Free(s, pat)
    ensures ReplaceAll(s, pat, rep) == s
    decreases |s|
  {
    if |s| >= |pat| {
      assert !OccursAt(s, pat, 0);
      assert Free(s[1..], pat) by {
        forall i
          ensures !OccursAt(s[1..], pat, i)
        {
          if 0 <= i && i + |pat| <= |s| - 1 {
            assert s[1..][i..i + |pat|] == s[i + 1..i + 1 + |pat|];
            assert !OccursAt(s, pat, i + 1);
          }
        }
      }
      ReplaceAbsent(s[1..], pat, rep);
      assert s == [s[0]] + s[1..];
    }
  }

  /** Removing ".meta" does not rescan: a new ".meta" can form where two pieces meet. */
  lemma MetaCanReappear()
    ensures ReplaceAll("a.me.metata", ".meta", "") == "a.meta"
  {
    assert "a.me.metata"[..5][0] != ".meta"[0];
    assert "a.me.metata"[1..] == ".me.metata";
    assert ".me.metata"[..5][3] != ".meta"[3];
    assert ".me.metata"[1..] == "me.metata";
    assert "me.metata"[..5][0] != ".meta"[0];
    assert "me.metata"[1..] == "e.metata";
    assert "e.metata"[..5][0] != ".meta"[0];
    assert "e.metata"[1..] == ".metata";
    assert ".metata"[..5] == ".meta";
    assert ".metata"[5..] == "ta";
    assert ReplaceAll("ta", ".meta", "") == "ta";
  }

  // ---------------------------------------------------------------------
  // The steps of OnWillCreateAsset
  // ---------------------------------------------------------------------

  /** The placeholders and the author the template gets. */
  const DatePlaceholder: string := "#CREATIONDATE#"
  const AuthorPlaceholder: string := "#SMARTDEVELOPERS#"
  const Author: string := "hcq"

  /** The asset path with every ".meta" the scan finds taken out. */
  function StripMeta(path: string): string
  {
    ReplaceAll(path, ".meta", "")
  }

  /** StripMeta leaves a path without ".meta" as it is. */
  lemma StripMetaPlain(path: string)
    requires Free(path, ".meta")
    ensures StripMeta(path) == path
  {
    ReplaceAbsent(path, ".meta", "");
  }

  /** StripMeta takes out the ".meta" occurrences the scan finds and keeps the text between them. */
  lemma StripMetaSplits(path: string)
    ensures StripMeta(path) == Join(Split(path, ".meta"), "")
    ensures Join(Split(path, ".meta"), ".meta") == path
  {
    ReplaceIsJoinOfSplit(path, ".meta", "");
    SplitRoundTrip(path, ".meta");
  }

  /** `path.Substring(path.LastIndexOf("."))`: the suffix from the last '.', which throws when there is no '.'. */
  function Extension(path: string): (r: Result<string, Exception>)
    ensures r.Failure? <==> '.' !in path
    ensures r.Failure? ==> r.error == ArgumentOutOfRange
    ensures r.Success? ==> 0 < |r.value| <= |path| && r.value[0] == '.' && '.' !in r.value[1..]
    ensures r.Success? ==> path == path[..|path| - |r.value|] + r.value
  {
    var index := LastIndexOf(path, ".");
    if index < 0 then
      assert '.' !in path by {
        forall i | 0 <= i < |path|
          ensures path[i] != '.'
        {
          assert !OccursAt(path, ".", i);
          assert path[i..i + 1] == [path[i]];
        }
      }
      Failure(ArgumentOutOfRange)
    else
      assert path[index..index + 1] == ".";
      var ext := path[index..];
      assert '.' !in ext[1..] by {
        forall k | 1 <= k < |ext|
          ensures ext[k] != '.'
        {
          assert path[index + k..index + k + 1] == [ext[k]];
          assert !OccursAt(path, ".", index + k);
        }
      }
      assert path == path[..index] + ext;
      Success(ext)
  }

  /** A path ending in a '.' followed by no other '.' has exactly that ending as its extension. */
  lemma ExtensionOfSuffix(stem: string, ext: string)
    requires |ext| > 0 && ext[0] == '.' && '.' !in ext[1..]
    ensures Extension(stem + ext) == Success(ext)
  {
    var path := stem + ext;
    var r := Extension(path);
    assert path[|stem|] == '.';
    assert r.value == path[|path| - |r.value|..];
  }

  /** The script kinds the template applies to; the comparison is exact and case-sensitive. */
  predicate IsScript(ext: string)
  {
    ext == ".cs" || ext == ".js" || ext == ".boo"
  }

  /** `dataPath.Substring(0, dataPath.LastIndexOf("Assets")) + path`, which throws when dataPath has no "Assets". */
  function AbsolutePath(dataPath: string, path: string): (r: Result<string, Exception>)
    ensures r.Failure? <==> Free(dataPath, "Assets")
    ensures r.Failure? ==> r.error == ArgumentOutOfRange
    ensures r.Success? ==> exists k :: (OccursAt(dataPath, "Assets", k) && r.value == dataPath[..k] + path &&
      forall j :: k < j ==> !OccursAt(dataPath, "Assets", j))
  {
    var index := LastIndexOf(dataPath, "Assets");
    if index < 0 then Failure(ArgumentOutOfRange)
    else Success(dataPath[..index] + path)
  }

  /** A project folder "<root>Assets" with no later "Assets" puts the asset path right after <root>. */
  lemma AbsolutePathOfProject(root: string, tail: string, path: string)
    requires Free(tail, "Assets")
    ensures AbsolutePath(root + "Assets" + tail, path) == Success(root + path)
  {
    var dataPath := root + "Assets" + tail;
    assert dataPath[|root|..|root| + 6] == "Assets";
    assert OccursAt(dataPath, "Assets", |root|);
    NoLaterAssets(root, tail);
    assert dataPath[..|root|] == root;
  }

  /** Past the "Assets" that follows `root`, no "Assets" begins: the word does not overlap itself. */
  lemma NoLaterAssets(root: string, tail: string)
    requires Free(tail, "Assets")
    ensures forall j :: |root| < j ==> !OccursAt(root + "Assets" + tail, "Assets", j)
  {
    var dataPath := root + "Assets" + tail;
    forall j | |root| < j
      ensures !OccursAt(dataPath, "Assets", j)
    {
      if j >= |root| + 6 {
        OccursInTail(root, tail, j);
      } else {
        StartsWithA(dataPath, j);
        assert dataPath[j] == "Assets"[j - |root|];
      }
    }
  }

  lemma StartsWithA(s: string, j: int)
    ensures OccursAt(s, "Assets", j) ==> s[j] == 'A'
  {
    if OccursAt(s, "Assets", j) {
      assert s[j] == s[j..j + 6][0];
    }
  }

  lemma OccursInTail(root: string, tail: string, j: int)
    requires j >= |root| + 6
    ensures OccursAt(root + "Assets" + tail, "Assets", j) ==> OccursAt(tail, "Assets", j - |root| - 6)
  {
    var dataPath := root + "Assets" + tail;
    if j + 6 <= |dataPath| {
      assert dataPath[j..j + 6] == tail[j - |root| - 6..j - |root|];
    }
  }

  /** The file text with the date and the author filled in. */
  function Substitute(text: string, date: string): string
  {
    ReplaceAll(ReplaceAll(text, DatePlaceholder, date), AuthorPlaceholder, Author)
  }

  /**
   * Every date placeholder the scan finds becomes the date, then every
   * author placeholder in the result becomes "hcq", and the text between
   * them stays as it was.
   */
  lemma SubstituteSplits(text: string, date: string)
    ensures Join(Split(text, DatePlaceholder), DatePlaceholder) == text
    ensures Substitute(text, date) ==
      Join(Split(Join(Split(text, DatePlaceholder), date), AuthorPlaceholder), Author)
  {
    ReplaceIsJoinOfSplit(text, DatePlaceholder, date);
    ReplaceIsJoinOfSplit(Join(Split(text, DatePlaceholder), date), AuthorPlaceholder, Author);
    SplitRoundTrip(text, DatePlaceholder);
  }

  /** A text with neither placeholder is left as it was. */
  lemma SubstitutePlain(text: string, date: string)
    requires Free(text, DatePlaceholder) && Free(text, AuthorPlaceholder)
    ensures Substitute(text, date) == text
  {
    ReplaceAbsent(text, DatePlaceholder, date);
    ReplaceAbsent(text, AuthorPlaceholder, Author);
  }

  /** What the creation of `path` does: skip it (None), rewrite the file it names, or throw. */
  function Target(path: string, dataPath: string): (r: Result<Option<string>, Exception>)
    ensures r.Failure? ==> r.error == ArgumentOutOfRange
    ensures r.Failure? <==> ('.' !in StripMeta(path) ||
      (IsScript(Extension(StripMeta(path)).value) && Free(dataPath, "Assets")))
    ensures r == Success(None) <==> '.' in StripMeta(path) && !IsScript(Extension(StripMeta(path)).value)
    ensures r.Success? && r.value.Some? ==> AbsolutePath(dataPath, StripMeta(path)) == Success(r.value.value)
  {
    var p := StripMeta(path);
    match Extension(p)
    case Failure(e) => Failure(e)
    case Success(file) =>
      if !IsScript(file) then Success(None)
      else
        match AbsolutePath(dataPath, p)
        case Failure(e) => Failure(e)
        case Success(abs) => Success(Some(abs))
  }

  /** A created C# script under a project folder is rewritten at the project root plus its path. */
  lemma ScriptIsRewritten(stem: string, root: string, tail: string)
    requires Free(stem + ".cs", ".meta") && Free(tail, "Assets")
    ensures Target(stem + ".cs", root + "Assets" + tail) == Success(Some(root + stem + ".cs"))
  {
    StripMetaPlain(stem + ".cs");
    ExtensionOfSuffix(stem, ".cs");
    AbsolutePathOfProject(root, tail, stem + ".cs");
    assert root + (stem + ".cs") == root + stem + ".cs";
  }

  // ---------------------------------------------------------------------
  // The files on disk
  // ---------------------------------------------------------------------

  class AssetFiles {
    /** The text of each file, by absolute path. */
    var files: map<string, string>
    /** How many times AssetDatabase.Refresh has run. */
    var refreshes: nat

    constructor(files: map<string, string>)
      ensures this.files == files && refreshes == 0
    {
      this.files := files;
      refreshes := 0;
    }

    /**
     * OnWillCreateAsset: for a script asset, the file at its absolute path
     * is read, its placeholders are filled in, it is written back and the
     * asset database is refreshed. A skipped asset and a thrown exception
     * leave the disk as it was. Success(true) means the file was rewritten.
     */
    method OnWillCreateAsset(path: string, dataPath: string, date: string) returns (r: Result<bool, Exception>)
      modifies this
      ensures Target(path, dataPath).Failure? ==>
        r == Failure(ArgumentOutOfRange) && files == old(files) && refreshes == old(refreshes)
      ensures Target(path, dataPath) == Success(None) ==>
        r == Success(false) && files == old(files) && refreshes == old(refreshes)
      ensures Target(path, dataPath).Success? && Target(path, dataPath).value.Some? ==>
        var abs := Target(path, dataPath).value.value;
        if abs !in old(files) then
          r == Failure(FileNotFound) && files == old(files) && refreshes == old(refreshes)
        else
          r == Success(true) && files == old(files)[abs := Substitute(old(files)[abs], date)] &&
          refreshes == old(refreshes) + 1
    {
      var p := StripMeta(path);
      var ext := Extension(p);
      if ext.Failure? {
        return Failure(ext.error);
      }
      if !IsScript(ext.value) {
        return Success(false);
      }
      var abs := AbsolutePath(dataPath, p);
      if abs.Failure? {
        return Failure(abs.error);
      }
      if abs.value !in files {
        return Failure(FileNotFound);
      }
      var text := files[abs.value];
      text := ReplaceAll(text, DatePlaceholder, date);
      text := ReplaceAll(text, AuthorPlaceholder, Author);
      files := files[abs.value := text];
      refreshes := refreshes + 1;
      r := Success(true);
    }
  }
}
