/**
 * The housekeeping script custom.py: every sub-folder of `wavs` is
 * flattened into `wavs` (a file f of folder d becomes d + "_" + f with
 * every "_" of f turned into "x", and the folder is removed once empty),
 * then every `.mp3` of the original listing is exported as a `.wav`.
 *
 * The file system is a map from the names in `wavs` to entries. The order
 * in which os.listdir reports names is the parameter `listdir`, the MP3
 * decoder and WAV encoder together are the parameter `toWav`. A failing
 * os or pydub call raises, which ends the script: the model reports it as
 * ok == false with the state the earlier calls left.
 */
module Custom {
  import Smacpy
  import SmacpyScript

  const WavsFolder: string := "wavs"

  // ---------------------------------------------------------------------
  // Name rules (lines 28, 30, 38, 40)
  // ---------------------------------------------------------------------

  /** file_.replace("_", "x") (line 28). */
  function ReplaceUnderscores(f: string): (g: string)
    ensures |g| == |f|
    ensures forall i :: 0 <= i < |f| ==> g[i] == if f[i] == '_' then 'x' else f[i]
    ensures '_' !in g
    decreases |f|
  {
    if |f| == 0 then ""
    else [if f[0] == '_' then 'x' else f[0]] + ReplaceUnderscores(f[1..])
  }

  /** A second replacement changes nothing. */
  lemma ReplaceUnderscoresIsIdempotent(f: string)
    ensures ReplaceUnderscores(ReplaceUnderscores(f)) == ReplaceUnderscores(f)
  {
    var g := ReplaceUnderscores(f);
    assert forall i :: 0 <= i < |g| ==> g[i] != '_';
  }

  /** The replacement is not injective: "a_b" and "axb" of one folder are
      moved to the same name, and the later rename overwrites the earlier. */
  lemma ReplaceUnderscoresMayCollide()
    ensures ReplaceUnderscores("a_b") == ReplaceUnderscores("axb") == "axb"
  {
    assert ReplaceUnderscores("b") == "b";
    assert ReplaceUnderscores("_b") == "xb";
    assert ReplaceUnderscores("xb") == "xb";
  }

  /** The name in `wavs` that file f of folder d is moved to (line 30). */
  function FlatName(d: string, f: string): (n: string)
    ensures |n| == |d| + 1 + |f|
    ensures n[..|d|] == d && n[|d|] == '_' && n[|d| + 1..] == ReplaceUnderscores(f)
  {
    d + "_" + ReplaceUnderscores(f)
  }

  /** A moved file never takes the name of its own folder. */
  lemma FlatNameIsNotFolder(d: string, f: string)
    ensures FlatName(d, f) != d
  {
    assert |FlatName(d, f)| > |d|;
  }

  /** When the folder name has no "_", the first "_"-piece of the new name
      is the folder name. */
  lemma FlatNameRecoversFolder(d: string, f: string)
    requires '_' !in d
    ensures SmacpyScript.FirstPiece(FlatName(d, f), "_") == d
  {
    var n := FlatName(d, f);
    SmacpyScript.FirstPieceAtChar(n, '_');
    var p := SmacpyScript.FirstPiece(n, "_");
    assert n[|d|] == '_';
    assert forall i :: 0 <= i < |d| ==> n[i] == d[i] && n[i] != '_';
    assert forall i :: 0 <= i < |p| ==> p[i] == n[i] && p[i] != '_';
    assert |p| == |d|;
  }

  lemma FlatNameHasNoSlash(d: string, f: string)
    requires '/' !in d && '/' !in f
    ensures '/' !in FlatName(d, f)
  {
    var n := FlatName(d, f);
    var g := ReplaceUnderscores(f);
    assert forall i :: 0 <= i < |d| ==> n[i] == d[i];
    assert forall i :: |d| < i < |n| ==> n[i] == g[i - |d| - 1];
  }

  /** A ".wav" file keeps its extension when it is moved. */
  lemma FlatNameKeepsWavExtension(d: string, f: string)
    requires |f| >= 4 && f[|f| - 4..] == ".wav"
    ensures FlatName(d, f)[|FlatName(d, f)| - 4..] == ".wav"
  {
    var g := ReplaceUnderscores(f);
    forall i | |f| - 4 <= i < |f|
      ensures g[i] == f[i]
    {
      assert f[i] == f[|f| - 4..][i - (|f| - 4)];
    }
    assert g[|g| - 4..] == f[|f| - 4..];
    assert FlatName(d, f) == (d + "_") + g;
  }

  /** The round trip with smacpy.py line 160: the class label smacpy.py
      gives the path wavs/<new name> of a file flattened by custom.py, with
      the default charsplit "_", is its original folder. */
  lemma FlattenedFileIsLabelledByFolder(d: string, f: string)
    requires '_' !in d && '/' !in d && '/' !in f
    ensures SmacpyScript.ClassLabel(Smacpy.JoinPath(WavsFolder, FlatName(d, f)), "_") == Smacpy.Ok(d)
  {
    var n := FlatName(d, f);
    FlatNameHasNoSlash(d, f);
    assert Smacpy.JoinPath(WavsFolder, n) == WavsFolder + "/" + n;
    SmacpyScript.BasenameOfJoin(WavsFolder, n);
    FlatNameRecoversFolder(d, f);
  }

  /** files[-4:] == ".mp3" (line 38); a name shorter than four characters
      is compared whole, as Python's slice does. */
  predicate IsMp3Name(n: string)
  {
    (if |n| >= 4 then n[|n| - 4..] else n) == ".mp3"
  }

  /** files[:-4] + '.wav' (line 40). */
  function WavName(n: string): (w: string)
    requires IsMp3Name(n)
    ensures |w| == |n| && w[..|n| - 4] == n[..|n| - 4] && w[|n| - 4..] == ".wav"
  {
    n[..|n| - 4] + ".wav"
  }

  /** Exactly the names stem + ".mp3" are converted, into stem + ".wav". */
  lemma Mp3NameIsStemAndExtension(stem: string)
    ensures IsMp3Name(stem + ".mp3")
    ensures WavName(stem + ".mp3") == stem + ".wav"
  {
    assert (stem + ".mp3")[|stem|..] == ".mp3";
    assert (stem + ".mp3")[..|stem|] == stem;
  }

  /** Two different MP3 names are never exported to the same WAV name. */
  lemma WavNameIsInjective(a: string, b: string)
    requires IsMp3Name(a) && IsMp3Name(b) && WavName(a) == WavName(b)
    ensures a == b
  {
    assert |a| == |b|;
    assert a == a[..|a| - 4] + ".mp3";
    assert b == b[..|b| - 4] + ".mp3";
  }

  // ---------------------------------------------------------------------
  // The file system and the steps of the script
  // ---------------------------------------------------------------------

  /** Content is opaque bytes; a directory maps names to entries. */
  datatype Entry = File(content: seq<bv8>) | Dir(children: map<string, Entry>)

  /** The state a sequence of os calls leaves, and whether none raised. */
  datatype Outcome = Outcome(top: map<string, Entry>, ok: bool)

  /** Which targets POSIX rename(2) accepts: a free name, a file over a
      file, a directory over an empty directory. */
  predicate CanReplace(top: map<string, Entry>, n: string, e: Entry)
  {
    n !in top || (top[n].File? && e.File?) || (top[n].Dir? && e.Dir? && top[n].children == map[])
  }

  /** os.rename(wavs/d/f, wavs/FlatName(d, f)) (line 30). */
  function RenameOut(top: map<string, Entry>, d: string, f: string): Outcome
  {
    if d !in top || !top[d].Dir? || f !in top[d].children then Outcome(top, false)
    else if !CanReplace(top, FlatName(d, f), top[d].children[f]) then Outcome(top, false)
    else
      Outcome(top[FlatName(d, f) := top[d].children[f]][d := Dir(top[d].children - {f})], true)
  }

  /** Lines 31-32: d is removed when its listing is empty. */
  function RemoveIfEmpty(top: map<string, Entry>, d: string): Outcome
  {
    if d !in top || !top[d].Dir? then Outcome(top, false)
    else if top[d].children == map[] then Outcome(top - {d}, true)
    else Outcome(top, true)
  }

  /** One pass of the inner loop (lines 28-32). */
  function MoveOut(top: map<string, Entry>, d: string, f: string): Outcome
  {
    var o := RenameOut(top, d, f);
    if !o.ok then o else RemoveIfEmpty(o.top, d)
  }

  /** The inner loop (lines 27-32) over the listing y of folder d. */
  function FlattenFolder(top: map<string, Entry>, d: string, y: seq<string>): Outcome
    decreases |y|
  {
    if |y| == 0 then Outcome(top, true)
    else
      var o := MoveOut(top, d, y[0]);
      if !o.ok then o else FlattenFolder(o.top, d, y[1..])
  }

  /** The outer loop (lines 17-34) over the listing x of wavs: only the
      entries that are directories are flattened. */
  function FlattenAll(top: map<string, Entry>, x: seq<string>, listdir: map<string, Entry> -> seq<string>): Outcome
    decreases |x|
  {
    if |x| == 0 then Outcome(top, true)
    else if x[0] in top && top[x[0]].Dir? then
      var o := FlattenFolder(top, x[0], listdir(top[x[0]].children));
      if !o.ok then o else FlattenAll(o.top, x[1..], listdir)
    else FlattenAll(top, x[1..], listdir)
  }

  /** Lines 39-40: decode wavs/n as MP3 and export it as wavs/WavName(n);
      an existing file of that name is overwritten. */
  function Export(top: map<string, Entry>, n: string, toWav: seq<bv8> -> seq<bv8>): Outcome
    requires IsMp3Name(n)
  {
    if n !in top || !top[n].File? then Outcome(top, false)
    else if WavName(n) in top && top[WavName(n)].Dir? then Outcome(top, false)
    else Outcome(top[WavName(n) := File(toWav(top[n].content))], true)
  }

  /** The MP3 loop (lines 37-40) over the listing x. */
  function ConvertAll(top: map<string, Entry>, x: seq<string>, toWav: seq<bv8> -> seq<bv8>): Outcome
    decreases |x|
  {
    if |x| == 0 then Outcome(top, true)
    else if IsMp3Name(x[0]) then
      var o := Export(top, x[0], toWav);
      if !o.ok then o else ConvertAll(o.top, x[1..], toWav)
    else ConvertAll(top, x[1..], toWav)
  }

  /** The whole script: create wavs when it is missing; otherwise take the
      listing x once (line 11), flatten, then convert the MP3s of x. */
  function Script(wavsExists: bool, top: map<string, Entry>, listdir: map<string, Entry> -> seq<string>,
                  toWav: seq<bv8> -> seq<bv8>): Outcome
  {
    if !wavsExists then Outcome(map[], true)
    else
      var x := listdir(top);
      var o := FlattenAll(top, x, listdir);
      if !o.ok then o else ConvertAll(o.top, x, toWav)
  }

  // ---------------------------------------------------------------------
  // What the passes do
  // ---------------------------------------------------------------------

  /** y lists exactly the names of a directory, each once, as os.listdir. */
  ghost predicate IsListing(y: seq<string>, names: set<string>)
  {
    && (forall f :: f in y <==> f in names)
    && (forall i, j :: 0 <= i < j < |y| ==> y[i] != y[j])
  }

  function FlatNames(d: string, y: seq<string>): set<string>
  {
    set f | f in y :: FlatName(d, f)
  }

  /** One move out of folder d with listing y: the file takes its new name,
      the folder keeps the rest of the listing, or goes when nothing is left. */
  lemma MoveOutStep(top: map<string, Entry>, d: string, y: seq<string>)
    requires d in top && top[d].Dir? && IsListing(y, top[d].children.Keys)
    requires |y| > 0 && MoveOut(top, d, y[0]).ok
    ensures var o := MoveOut(top, d, y[0]).top;
      && FlatName(d, y[0]) != d
      && o.Keys == (if |y| == 1 then top.Keys - {d} else top.Keys) + {FlatName(d, y[0])}
      && o[FlatName(d, y[0])] == top[d].children[y[0]]
      && (forall n :: n in top && n != d && n != FlatName(d, y[0]) ==> o[n] == top[n])
      && (|y| > 1 ==> d in o && o[d].Dir? && IsListing(y[1..], o[d].children.Keys))
      && (|y| > 1 ==> forall g :: g in o[d].children ==> o[d].children[g] == top[d].children[g])
  {
    var f := y[0];
    var n := FlatName(d, f);
    FlatNameIsNotFolder(d, f);
    var rest := top[d].children - {f};
    assert rest.Keys == top[d].children.Keys - {f};
    if |y| == 1 {
      assert top[d].children.Keys == {f};
      assert rest.Keys == {};
      assert rest == map[];
    } else {
      assert y[1] in rest;
      forall g
        ensures g in y[1..] <==> g in rest
      {
        if g in y[1..] {
          var i :| 0 <= i < |y[1..]| && y[1..][i] == g;
          assert y[i + 1] == g;
        }
        if g in rest {
          var i :| 0 <= i < |y| && y[i] == g;
          assert i != 0;
          assert y[1..][i - 1] == g;
        }
      }
    }
  }

  lemma FlatNamesSplit(d: string, y: seq<string>)
    requires |y| > 0
    ensures FlatNames(d, y) == {FlatName(d, y[0])} + FlatNames(d, y[1..])
  {
    assert forall g :: g in y <==> g == y[0] || g in y[1..];
  }

  /** Flattening folder d with its listing y, when no call raises: the folder
      is removed exactly when y is non-empty, every file gets its new name,
      and no other name of wavs is touched. */
  lemma FlattenFolderEffect(top: map<string, Entry>, d: string, y: seq<string>)
    requires d in top && top[d].Dir? && IsListing(y, top[d].children.Keys)
    requires FlattenFolder(top, d, y).ok
    ensures var t := FlattenFolder(top, d, y).top;
      && t.Keys == (if |y| == 0 then top.Keys else (top.Keys - {d}) + FlatNames(d, y))
      && (forall n :: n in top && n != d && n !in FlatNames(d, y) ==> t[n] == top[n])
  {
    FlattenFolderKeys(top, d, y);
    FlattenFolderUnchanged(top, d, y);
  }

  /** The names of wavs after one move, and the folder's remaining listing. */
  lemma MoveOutShape(top: map<string, Entry>, d: string, y: seq<string>)
    requires d in top && top[d].Dir? && IsListing(y, top[d].children.Keys)
    requires |y| > 0 && MoveOut(top, d, y[0]).ok
    ensures var o := MoveOut(top, d, y[0]).top;
      && o.Keys == (if |y| == 1 then top.Keys - {d} else top.Keys) + {FlatName(d, y[0])}
      && (|y| > 1 ==> d in o && o[d].Dir? && IsListing(y[1..], o[d].children.Keys))
  {
    MoveOutStep(top, d, y);
  }

  lemma {:induction false} FlattenFolderKeys(top: map<string, Entry>, d: string, y: seq<string>)
    requires d in top && top[d].Dir? && IsListing(y, top[d].children.Keys)
    requires FlattenFolder(top, d, y).ok
    ensures FlattenFolder(top, d, y).top.Keys ==
              if |y| == 0 then top.Keys else (top.Keys - {d}) + FlatNames(d, y)
    decreases |y|
  {
    if |y| > 0 {
      MoveOutShape(top, d, y);
      FlatNamesSplit(d, y);
      var n := FlatName(d, y[0]);
      var o := MoveOut(top, d, y[0]).top;
      FlatNameIsNotFolder(d, y[0]);
      if |y| > 1 {
        FlattenFolderKeys(o, d, y[1..]);
        KeysAfterRest(top.Keys, o.Keys, d, n, FlatNames(d, y[1..]), FlatNames(d, y));
      }
    }
  }

  /** The set arithmetic of one step of FlattenFolderKeys. */
  lemma KeysAfterRest(keys: set<string>, after: set<string>, d: string, n: string,
                      restNames: set<string>, allNames: set<string>)
    requires n != d && after == keys + {n} && allNames == {n} + restNames
    ensures (after - {d}) + restNames == (keys - {d}) + allNames
  {
  }

  lemma {:induction false} FlattenFolderUnchanged(top: map<string, Entry>, d: string, y: seq<string>)
    requires d in top && top[d].Dir? && IsListing(y, top[d].children.Keys)
    requires FlattenFolder(top, d, y).ok
    ensures forall n :: n in top && n != d && n !in FlatNames(d, y) ==>
              n in FlattenFolder(top, d, y).top && FlattenFolder(top, d, y).top[n] == top[n]
    decreases |y|
  {
    if |y| > 0 {
      MoveOutStep(top, d, y);
      FlatNamesSplit(d, y);
      var o := MoveOut(top, d, y[0]).top;
      if |y| > 1 {
        FlattenFolderUnchanged(o, d, y[1..]);
      }
    }
  }

  /** When the new names of y are pairwise different, every moved file keeps
      its content under its new name. */
  lemma FlattenFolderKeepsContents(top: map<string, Entry>, d: string, y: seq<string>)
    requires d in top && top[d].Dir? && IsListing(y, top[d].children.Keys)
    requires DistinctFlatNames(d, y)
    requires FlattenFolder(top, d, y).ok
    ensures forall i :: 0 <= i < |y| ==>
              FlatName(d, y[i]) in FlattenFolder(top, d, y).top &&
              FlattenFolder(top, d, y).top[FlatName(d, y[i])] == top[d].children[y[i]]
  {
    forall i | 0 <= i < |y|
      ensures FlatName(d, y[i]) in FlattenFolder(top, d, y).top
      ensures FlattenFolder(top, d, y).top[FlatName(d, y[i])] == top[d].children[y[i]]
    {
      KeepsContentAt(top, d, y, i);
    }
  }

  /** No two names of the listing are moved to the same new name. */
  predicate DistinctFlatNames(d: string, y: seq<string>)
  {
    forall i, j :: 0 <= i < j < |y| ==> FlatName(d, y[i]) != FlatName(d, y[j])
  }

  lemma DistinctFlatNamesTail(d: string, y: seq<string>)
    requires |y| > 0 && DistinctFlatNames(d, y)
    ensures DistinctFlatNames(d, y[1..]) && FlatName(d, y[0]) !in FlatNames(d, y[1..])
  {
    var rest := y[1..];
    forall a, b | 0 <= a < b < |rest|
      ensures FlatName(d, rest[a]) != FlatName(d, rest[b])
    {
      assert rest[a] == y[a + 1] && rest[b] == y[b + 1];
    }
    forall g | g in rest
      ensures FlatName(d, g) != FlatName(d, y[0])
    {
      var k :| 0 <= k < |rest| && rest[k] == g;
      assert y[k + 1] == g;
    }
  }

  lemma {:induction false} KeepsContentAt(top: map<string, Entry>, d: string, y: seq<string>, i: nat)
    requires d in top && top[d].Dir? && IsListing(y, top[d].children.Keys)
    requires DistinctFlatNames(d, y)
    requires FlattenFolder(top, d, y).ok && i < |y|
    ensures FlatName(d, y[i]) in FlattenFolder(top, d, y).top
    ensures FlattenFolder(top, d, y).top[FlatName(d, y[i])] == top[d].children[y[i]]
    decreases |y|
  {
    var o := MoveOut(top, d, y[0]).top;
    MoveOutMoved(top, d, y);
    if |y| > 1 {
      var rest := y[1..];
      MoveOutShape(top, d, y);
      DistinctFlatNamesTail(d, y);
      if i == 0 {
        FlattenFolderUnchanged(o, d, rest);
      } else {
        MoveOutKeepsChildren(top, d, y);
        assert rest[i - 1] == y[i];
        KeepsContentAt(o, d, rest, i - 1);
      }
    }
  }

  /** The moved file is under its new name after one move. */
  lemma MoveOutMoved(top: map<string, Entry>, d: string, y: seq<string>)
    requires d in top && top[d].Dir? && IsListing(y, top[d].children.Keys)
    requires |y| > 0 && MoveOut(top, d, y[0]).ok
    ensures FlatName(d, y[0]) != d
    ensures FlatName(d, y[0]) in MoveOut(top, d, y[0]).top
    ensures MoveOut(top, d, y[0]).top[FlatName(d, y[0])] == top[d].children[y[0]]
    ensures |y| == 1 ==> FlattenFolder(top, d, y) == MoveOut(top, d, y[0])
  {
    MoveOutStep(top, d, y);
  }

  /** The files left in the folder keep their contents after one move. */
  lemma MoveOutKeepsChildren(top: map<string, Entry>, d: string, y: seq<string>)
    requires d in top && top[d].Dir? && IsListing(y, top[d].children.Keys)
    requires |y| > 1 && MoveOut(top, d, y[0]).ok
    ensures var o := MoveOut(top, d, y[0]).top;
      && d in o && o[d].Dir?
      && forall g :: g in o[d].children ==> o[d].children[g] == top[d].children[g]
  {
    MoveOutStep(top, d, y);
  }

  /** Only directories of the listing are flattened: a listing whose names
      are all files (or gone) leaves wavs as it is. */
  lemma {:induction false} FlattenAllSkipsFiles(top: map<string, Entry>, x: seq<string>,
                                                listdir: map<string, Entry> -> seq<string>)
    requires forall k :: 0 <= k < |x| ==> x[k] !in top || top[x[k]].File?
    ensures FlattenAll(top, x, listdir) == Outcome(top, true)
    decreases |x|
  {
    if |x| > 0 {
      assert forall k :: 0 <= k < |x[1..]| ==> x[1..][k] == x[k + 1];
      FlattenAllSkipsFiles(top, x[1..], listdir);
    }
  }

  /** An empty sub-folder moves nothing and is kept. */
  lemma EmptyFolderIsKept(top: map<string, Entry>, d: string, listdir: map<string, Entry> -> seq<string>)
    requires d in top && top[d].Dir? && IsListing(listdir(top[d].children), top[d].children.Keys)
    requires top[d].children == map[]
    ensures FlattenAll(top, [d], listdir) == Outcome(top, true)
  {
  }

  function WavNames(x: seq<string>): set<string>
  {
    set n | n in x && IsMp3Name(n) :: WavName(n)
  }

  /** The MP3 pass, when no call raises, adds exactly the WAV names of the
      MP3 names in its listing and changes no other name. */
  lemma {:induction false} ConvertAllEffect(top: map<string, Entry>, x: seq<string>, toWav: seq<bv8> -> seq<bv8>)
    requires ConvertAll(top, x, toWav).ok
    ensures ConvertAll(top, x, toWav).top.Keys == top.Keys + WavNames(x)
    ensures forall n :: n in top && n !in WavNames(x) ==> ConvertAll(top, x, toWav).top[n] == top[n]
    decreases |x|
  {
    if |x| > 0 {
      var rest := x[1..];
      assert forall n :: n in x <==> n == x[0] || n in rest;
      if IsMp3Name(x[0]) {
        var o := Export(top, x[0], toWav);
        ConvertAllEffect(o.top, rest, toWav);
        assert WavNames(x) == {WavName(x[0])} + WavNames(rest);
      } else {
        ConvertAllEffect(top, rest, toWav);
        assert WavNames(x) == WavNames(rest);
      }
    }
  }

  /** Every MP3 name the pass converts comes from the listing it was given. */
  lemma ConvertedNamesComeFromListing(x: seq<string>, m: string)
    requires IsMp3Name(m) && m !in x
    ensures WavName(m) !in WavNames(x)
  {
    if WavName(m) in WavNames(x) {
      var n :| n in x && IsMp3Name(n) && WavName(n) == WavName(m);
      WavNameIsInjective(n, m);
    }
  }

  /** Files moved out of sub-folders are not converted in the same run: for
      an MP3 name m that was not in the listing x of line 11, the WAV name of
      m holds after the script exactly what it held after flattening. */
  lemma MovedMp3IsNotConverted(wavsExists: bool, top: map<string, Entry>, listdir: map<string, Entry> -> seq<string>,
                               toWav: seq<bv8> -> seq<bv8>, m: string)
    requires wavsExists && Script(wavsExists, top, listdir, toWav).ok
    requires IsMp3Name(m) && m !in listdir(top)
    ensures var flat := FlattenAll(top, listdir(top), listdir).top;
            var final := Script(wavsExists, top, listdir, toWav).top;
            && (WavName(m) in final <==> WavName(m) in flat)
            && (WavName(m) in flat ==> final[WavName(m)] == flat[WavName(m)])
  {
    var x := listdir(top);
    var flat := FlattenAll(top, x, listdir).top;
    ConvertAllEffect(flat, x, toWav);
    ConvertedNamesComeFromListing(x, m);
  }

  // ---------------------------------------------------------------------
  // The script as it runs against the file system
  // ---------------------------------------------------------------------

  /** The working directory of the script: whether wavs exists, and what
      it holds. */
  class Workspace {
    var wavsExists: bool
    var wavs: map<string, Entry>

    ghost predicate Valid()
      reads this
    {
      !wavsExists ==> wavs == map[]
    }

    constructor (wavsExists: bool, wavs: map<string, Entry>)
      requires wavsExists || wavs == map[]
      ensures Valid() && this.wavsExists == wavsExists && this.wavs == wavs
    {
      this.wavsExists := wavsExists;
      this.wavs := wavs;
    }

    /** os.rename of line 30. */
    method Rename(d: string, f: string) returns (ok: bool)
      requires Valid() && wavsExists
      modifies this`wavs
      ensures Valid()
      ensures ok == RenameOut(old(wavs), d, f).ok && wavs == RenameOut(old(wavs), d, f).top
    {
      if d !in wavs || !wavs[d].Dir? || f !in wavs[d].children {
        return false;
      }
      var e := wavs[d].children[f];
      var n := FlatName(d, f);
      if !CanReplace(wavs, n, e) {
        return false;
      }
      wavs := wavs[n := e][d := Dir(wavs[d].children - {f})];
      ok := true;
    }

    /** Lines 31-32: os.listdir, then os.rmdir when the listing is empty. */
    method RemoveIfEmptyDir(d: string) returns (ok: bool)
      requires Valid() && wavsExists
      modifies this`wavs
      ensures Valid()
      ensures ok == RemoveIfEmpty(old(wavs), d).ok && wavs == RemoveIfEmpty(old(wavs), d).top
    {
      if d !in wavs || !wavs[d].Dir? {
        return false;
      }
      if wavs[d].children == map[] {
        wavs := wavs - {d};
      }
      ok := true;
    }

    /** Lines 39-40: from_mp3 and export. */
    method ExportWav(n: string, toWav: seq<bv8> -> seq<bv8>) returns (ok: bool)
      requires Valid() && wavsExists && IsMp3Name(n)
      modifies this`wavs
      ensures Valid()
      ensures ok == Export(old(wavs), n, toWav).ok && wavs == Export(old(wavs), n, toWav).top
    {
      if n !in wavs || !wavs[n].File? {
        return false;
      }
      var w := WavName(n);
      if w in wavs && wavs[w].Dir? {
        return false;
      }
      wavs := wavs[w := File(toWav(wavs[n].content))];
      ok := true;
    }

    /** The inner loop (lines 27-32) over the listing y of folder d. */
    method FlattenFolderIn(d: string, y: seq<string>) returns (ok: bool)
      requires Valid() && wavsExists
      modifies this`wavs
      ensures Valid()
      ensures ok == FlattenFolder(old(wavs), d, y).ok && wavs == FlattenFolder(old(wavs), d, y).top
    {
      var k := 0;
      while k < |y|
        invariant 0 <= k <= |y| && Valid()
        invariant FlattenFolder(wavs, d, y[k..]) == FlattenFolder(old(wavs), d, y)
      {
        assert y[k..][1..] == y[k + 1..];
        ok := Rename(d, y[k]);
        if !ok {
          return;
        }
        ok := RemoveIfEmptyDir(d);
        if !ok {
          return;
        }
        k := k + 1;
      }
      ok := true;
    }

    /** The outer loop (lines 17-34) over the listing x of wavs. */
    method FlattenAllIn(x: seq<string>, listdir: map<string, Entry> -> seq<string>) returns (ok: bool)
      requires Valid() && wavsExists
      modifies this`wavs
      ensures Valid()
      ensures ok == FlattenAll(old(wavs), x, listdir).ok && wavs == FlattenAll(old(wavs), x, listdir).top
    {
      var j := 0;
      while j < |x|
        invariant 0 <= j <= |x| && Valid()
        invariant FlattenAll(wavs, x[j..], listdir) == FlattenAll(old(wavs), x, listdir)
      {
        var folder := x[j];
        assert x[j..][1..] == x[j + 1..];
        if folder in wavs && wavs[folder].Dir? {
          ok := FlattenFolderIn(folder, listdir(wavs[folder].children));
          if !ok {
            return;
          }
        }
        j := j + 1;
      }
      ok := true;
    }

    /** The MP3 loop (lines 36-40) over the listing x taken at line 11. */
    method ConvertAllIn(x: seq<string>, toWav: seq<bv8> -> seq<bv8>) returns (ok: bool)
      requires Valid() && wavsExists
      modifies this`wavs
      ensures Valid()
      ensures ok == ConvertAll(old(wavs), x, toWav).ok && wavs == ConvertAll(old(wavs), x, toWav).top
    {
      var i := 0;
      while i < |x|
        invariant 0 <= i <= |x| && Valid()
        invariant ConvertAll(wavs, x[i..], toWav) == ConvertAll(old(wavs), x, toWav)
      {
        assert x[i..][1..] == x[i + 1..];
        if IsMp3Name(x[i]) {
          ok := ExportWav(x[i], toWav);
          if !ok {
            return;
          }
        }
        i := i + 1;
      }
      ok := true;
    }

    /** The whole script (lines 8-55). */
    method Run(listdir: map<string, Entry> -> seq<string>, toWav: seq<bv8> -> seq<bv8>) returns (ok: bool)
      requires Valid()
      modifies this
      ensures Valid() && wavsExists
      ensures ok == Script(old(wavsExists), old(wavs), listdir, toWav).ok
      ensures wavs == Script(old(wavsExists), old(wavs), listdir, toWav).top
    {
      if !wavsExists {
        wavsExists := true;
        wavs := map[];
        return true;
      }
      var x := listdir(wavs);
      ok := FlattenAllIn(x, listdir);
      if !ok {
        return;
      }
      ok := ConvertAllIn(x, toWav);
    }
  }
}
