/**
 * The class label the smacpy.py script derives from a training file name
 * (line 160): the basename up to, not including, the first occurrence of
 * the split string.
 */
module SmacpyScript {
  import opened Smacpy

  /** os.path.basename for POSIX paths: everything after the last '/'. */
  function Basename(p: string): (b: string)
    ensures '/' !in b
    ensures |b| <= |p| && b == p[|p| - |b|..]
    ensures |b| < |p| ==> p[|p| - |b| - 1] == '/'
    decreases |p|
  {
    if |p| == 0 || p[|p| - 1] == '/' then ""
    else Basename(p[..|p| - 1]) + [p[|p| - 1]]
  }

  /** The basename of a path joined below a folder is the last part. */
  lemma {:induction false} BasenameOfJoin(folder: string, name: string)
    requires '/' !in name
    ensures Basename(folder + "/" + name) == name
    decreases |name|
  {
    if |name| == 0 {
      assert (folder + "/" + name)[|folder|] == '/';
    } else {
      var n := |name|;
      assert (folder + "/" + name)[..|folder| + n] == folder + "/" + name[..n - 1];
      BasenameOfJoin(folder, name[..n - 1]);
      assert name == name[..n - 1] + [name[n - 1]];
    }
  }

  /** sep occurs in s starting at index k. */
  predicate OccursAt(s: string, sep: string, k: nat)
  {
    k + |sep| <= |s| && s[k..k + |sep|] == sep
  }

  /** s.split(sep)[0] for a non-empty separator: the longest prefix of s in
      which no occurrence of sep starts; it ends where the first occurrence
      starts, or at the end of s. */
  function FirstPiece(s: string, sep: string): (p: string)
    requires |sep| > 0
    ensures |p| <= |s| && p == s[..|p|]
    ensures forall k :: 0 <= k < |p| ==> !OccursAt(s, sep, k)
    ensures |p| == |s| || OccursAt(s, sep, |p|)
    decreases |s|
  {
    if |s| == 0 || OccursAt(s, sep, 0) then ""
    else
      OccursShift(s, sep);
      [s[0]] + FirstPiece(s[1..], sep)
  }

  lemma OccursShift(s: string, sep: string)
    requires |s| > 0
    ensures forall k :: 1 <= k < |s| ==> (OccursAt(s, sep, k) <==> OccursAt(s[1..], sep, k - 1))
  {
    forall k | 1 <= k < |s|
      ensures OccursAt(s, sep, k) <==> OccursAt(s[1..], sep, k - 1)
    {
      if k + |sep| <= |s| {
        assert s[1..][k - 1..k - 1 + |sep|] == s[k..k + |sep|];
      }
    }
  }

  /** For a one-character separator c, the first piece is the prefix before
      the first c, or all of s when s has no c. */
  lemma FirstPieceAtChar(s: string, c: char)
    ensures var p := FirstPiece(s, [c]);
            && c !in p
            && (c !in s ==> p == s)
            && (c in s ==> |p| < |s| && s[|p|] == c)
  {
    var p := FirstPiece(s, [c]);
    forall k | 0 <= k < |p|
      ensures p[k] != c
    {
      assert !OccursAt(s, [c], k);
      assert s[k..k + 1] == [s[k]];
    }
    if |p| < |s| {
      assert OccursAt(s, [c], |p|);
      assert s[|p|..|p| + 1] == [s[|p|]];
    } else {
      assert p == s;
    }
  }

  /** Line 160: the class label of a file is the first piece of its
      basename split at charsplit; Python refuses an empty separator. */
  function ClassLabel(wavpath: string, charsplit: string): Result<string, Error>
  {
    if |charsplit| == 0 then Err(EmptySeparator)
    else Ok(FirstPiece(Basename(wavpath), charsplit))
  }

  /** With a one-character separator c, the label is the basename up to the
      first c, or the whole basename when it has no c. */
  lemma ClassLabelSplitsAtFirstChar(wavpath: string, c: char)
    ensures ClassLabel(wavpath, [c]).Ok?
    ensures var name := ClassLabel(wavpath, [c]).value;
            var base := Basename(wavpath);
            && name == base[..|name|]
            && c !in name && '/' !in name
            && (c !in base ==> name == base)
            && (c in base ==> |name| < |base| && base[|name|] == c)
  {
    var base := Basename(wavpath);
    assert ClassLabel(wavpath, [c]) == Ok(FirstPiece(base, [c]));
    FirstPieceAtChar(base, c);
    PrefixHasNoSlash(base, FirstPiece(base, [c]));
  }

  /** A prefix of a string without '/' has no '/'. */
  lemma PrefixHasNoSlash(s: string, p: string)
    requires '/' !in s && |p| <= |s| && p == s[..|p|]
    ensures '/' !in p
  {
    forall k | 0 <= k < |p|
      ensures p[k] != '/'
    {
      assert p[k] == s[k];
    }
  }

  /** An empty charsplit is an error, not a label. */
  lemma EmptyCharsplitIsRefused(wavpath: string)
    ensures ClassLabel(wavpath, "") == Err(EmptySeparator)
  {
  }
}
