/** The blob retention script `cleanup-blobs.js`: it loads `.env.local` into the environment,
    lists every blob and splits the listing into blobs to keep (those of the letters named in
    `KEEP_IDS`) and blobs to delete, then deletes the latter in one call. */
module Cleanup {
  import opened Common
  import ProcessEnv
  import Letters

  /** A key part of `/^([^=:#]+)=(.*)$/`: no `=`, `:` or `#`. */
  predicate IsKeyPart(k: string) {
    forall j :: 0 <= j < |k| ==> k[j] != '=' && k[j] != ':' && k[j] != '#'
  }

  /** One line matches `/^([^=:#]+)=(.*)$/` with the `=` at index `i`: a non-empty key part
      and a value part without line terminators. */
  ghost predicate EnvLineMatchAt(line: string, i: int) {
    && 0 < i < |line|
    && line[i] == '='
    && IsKeyPart(line[..i])
    && NoLineTerminator(line[i + 1..])
  }

  /** `line.match(/^([^=:#]+)=(.*)$/)`, giving `(match[1].trim(), match[2].trim())`. */
  function ParseEnvLine(line: string): (r: Option<(string, string)>)
    ensures r.Some? <==> exists i :: EnvLineMatchAt(line, i)
    ensures forall i :: EnvLineMatchAt(line, i) ==> r == Some((Trim(line[..i]), Trim(line[i + 1..])))
  {
    if '=' in line then
      var i := IndexOf(line, '=');
      EnvMatchAtFirstEquals(line, i);
      if 0 < i && IsKeyPart(line[..i]) && NoLineTerminator(line[i + 1..]) then
        Some((Trim(line[..i]), Trim(line[i + 1..])))
      else
        None
    else
      None
  }

  /** The pattern can only match at the first `=`. */
  lemma EnvMatchAtFirstEquals(line: string, i: nat)
    requires i < |line| && line[i] == '=' && forall j :: 0 <= j < i ==> line[j] != '='
    ensures forall k :: EnvLineMatchAt(line, k) ==> k == i
    ensures EnvLineMatchAt(line, i) <==> 0 < i && IsKeyPart(line[..i]) && NoLineTerminator(line[i + 1..])
  {
  }

  /** `loadEnv()`: a missing `.env.local` throws before anything is set; otherwise each of its
      lines is applied to `process.env` in order. */
  method LoadEnv(env: ProcessEnv.Environment, file: Option<string>) returns (loaded: bool)
    modifies env
    ensures loaded == file.Some?
    ensures file.None? ==> env.vars == old(env.vars)
    ensures file.Some? ==> env.vars == ProcessEnv.ApplyLines(ParseEnvLine, old(env.vars), Split(file.value, '\n'))
  {
    if file.None? {
      return false;
    }
    ProcessEnv.LoadLines(env, ParseEnvLine, Split(file.value, '\n'));
    loaded := true;
  }

  /** The ids whose blobs are kept. */
  const KeepIds: seq<string> := [
    "ornament_1765809199791_g5d2tabla",
    "ornament_1765803109037_h0csus9x7",
    "ornament_1765736454433_wtn842iha",
    "ornament_1765804062175_v6icxk67c",
    "ornament_1765810669345_980xlkts5"]

  /** An entry of `list()`: a blob's path name and its URL. */
  datatype BlobInfo = BlobInfo(pathname: string, url: string)

  /** `/letters\/(.+)\.json$/` matches `p` with `letters/` starting at index `i`: the rest
      is a non-empty id without line terminators followed by `.json` at the very end. */
  predicate LetterMatchAt(p: string, i: nat) {
    && i + 14 <= |p|
    && p[i..i + 8] == "letters/"
    && p[|p| - 5..] == ".json"
    && NoLineTerminator(p[i + 8..|p| - 5])
  }

  /** The leftmost match at or after `from`, and its captured id. */
  function LetterIdFrom(p: string, from: nat): (r: Option<string>)
    ensures r.None? ==> forall i :: from <= i <= |p| ==> !LetterMatchAt(p, i)
    ensures r.Some? ==> exists i :: from <= i && LetterMatchAt(p, i) && r.value == p[i + 8..|p| - 5]
                          && forall j :: from <= j < i ==> !LetterMatchAt(p, j)
    decreases |p| - from
  {
    if from + 14 > |p| then None
    else if LetterMatchAt(p, from) then Some(p[from + 8..|p| - 5])
    else LetterIdFrom(p, from + 1)
  }

  /** `pathname.match(/letters\/(.+)\.json$/)`, giving `match[1]`. */
  function LetterId(pathname: string): Option<string> {
    LetterIdFrom(pathname, 0)
  }

  /** The retention test: a letter record is kept when its id is exactly a kept id;
      any other blob when its path contains some kept id. */
  predicate ShouldKeep(keep: seq<string>, pathname: string) {
    match LetterId(pathname)
    case Some(id) => id in keep
    case None => exists i :: 0 <= i < |keep| && Contains(pathname, keep[i])
  }

  /** The path names of the blobs `keepIt` keeps, in listing order. */
  function KeptBy(keepIt: string -> bool, blobs: seq<BlobInfo>): seq<string> {
    if blobs == [] then []
    else
      var last := blobs[|blobs| - 1];
      KeptBy(keepIt, blobs[..|blobs| - 1]) + (if keepIt(last.pathname) then [last.pathname] else [])
  }

  /** The URLs of the blobs `keepIt` does not keep, in listing order. */
  function DeletedBy(keepIt: string -> bool, blobs: seq<BlobInfo>): seq<string> {
    if blobs == [] then []
    else
      var last := blobs[|blobs| - 1];
      DeletedBy(keepIt, blobs[..|blobs| - 1]) + (if keepIt(last.pathname) then [] else [last.url])
  }

  function Retention(keep: seq<string>): string -> bool {
    pathname => ShouldKeep(keep, pathname)
  }

  /** `blobsToKeep`: the path names of the kept blobs, in listing order. */
  function KeptPaths(keep: seq<string>, blobs: seq<BlobInfo>): seq<string> {
    KeptBy(Retention(keep), blobs)
  }

  /** `blobsToDelete`: the URLs of the other blobs, in listing order. */
  function DeletedUrls(keep: seq<string>, blobs: seq<BlobInfo>): seq<string> {
    DeletedBy(Retention(keep), blobs)
  }

  /** The classification loop of `cleanupBlobs`. */
  method Partition(keep: seq<string>, blobs: seq<BlobInfo>) returns (toKeep: seq<string>, toDelete: seq<string>)
    ensures toKeep == KeptPaths(keep, blobs)
    ensures toDelete == DeletedUrls(keep, blobs)
    ensures |toKeep| + |toDelete| == |blobs|
  {
    toKeep, toDelete := [], [];
    ghost var keepIt := Retention(keep);
    var i := 0;
    while i < |blobs|
      invariant 0 <= i <= |blobs|
      invariant toKeep == KeptBy(keepIt, blobs[..i])
      invariant toDelete == DeletedBy(keepIt, blobs[..i])
      invariant |toKeep| + |toDelete| == i
    {
      var blob := blobs[i];
      var shouldKeep := Classify(keep, blob.pathname);
      ClassifyStep(keepIt, blobs, i);
      if shouldKeep {
        toKeep := toKeep + [blob.pathname];
      } else {
        toDelete := toDelete + [blob.url];
      }
      i := i + 1;
    }
    assert blobs[..i] == blobs;
  }

  /** The body of the classification loop: a letter record by its id, anything else by
      the kept ids its path contains. */
  method Classify(keep: seq<string>, pathname: string) returns (shouldKeep: bool)
    ensures shouldKeep == Retention(keep)(pathname)
  {
    match LetterId(pathname) {
      case Some(ornamentId) =>
        shouldKeep := ornamentId in keep;
      case None =>
        shouldKeep := exists j :: 0 <= j < |keep| && Contains(pathname, keep[j]);
    }
  }

  /** Classifying one more blob of the listing. */
  lemma ClassifyStep(keepIt: string -> bool, blobs: seq<BlobInfo>, i: nat)
    requires i < |blobs|
    ensures KeptBy(keepIt, blobs[..i + 1]) ==
      KeptBy(keepIt, blobs[..i]) + (if keepIt(blobs[i].pathname) then [blobs[i].pathname] else [])
    ensures DeletedBy(keepIt, blobs[..i + 1]) ==
      DeletedBy(keepIt, blobs[..i]) + (if keepIt(blobs[i].pathname) then [] else [blobs[i].url])
  {
    assert blobs[..i + 1][..i] == blobs[..i];
  }

  lemma {:induction false} ClassifySizes(keepIt: string -> bool, blobs: seq<BlobInfo>)
    ensures |KeptBy(keepIt, blobs)| + |DeletedBy(keepIt, blobs)| == |blobs|
  {
    if blobs != [] {
      ClassifySizes(keepIt, blobs[..|blobs| - 1]);
    }
  }

  lemma {:induction false} ClassifyAppend(keepIt: string -> bool, a: seq<BlobInfo>, b: seq<BlobInfo>)
    ensures KeptBy(keepIt, a + b) == KeptBy(keepIt, a) + KeptBy(keepIt, b)
    ensures DeletedBy(keepIt, a + b) == DeletedBy(keepIt, a) + DeletedBy(keepIt, b)
    decreases |b|
  {
    if b == [] {
      assert a + b == a;
    } else {
      var b' := b[..|b| - 1];
      assert (a + b)[..|a + b| - 1] == a + b';
      ClassifyAppend(keepIt, a, b');
    }
  }

  lemma {:induction false} ClassifyMembership(keepIt: string -> bool, blobs: seq<BlobInfo>, i: nat)
    requires i < |blobs|
    ensures keepIt(blobs[i].pathname) ==> blobs[i].pathname in KeptBy(keepIt, blobs)
    ensures !keepIt(blobs[i].pathname) ==> blobs[i].url in DeletedBy(keepIt, blobs)
  {
    if i < |blobs| - 1 {
      var front := blobs[..|blobs| - 1];
      assert front[i] == blobs[i];
      ClassifyMembership(keepIt, front, i);
    }
  }

  /** Every blob lands in exactly one of the two lists. */
  lemma PartitionSizes(keep: seq<string>, blobs: seq<BlobInfo>)
    ensures |KeptPaths(keep, blobs)| + |DeletedUrls(keep, blobs)| == |blobs|
  {
    ClassifySizes(Retention(keep), blobs);
  }

  /** Both lists follow the listing: classifying a concatenation concatenates the results. */
  lemma PartitionPreservesOrder(keep: seq<string>, a: seq<BlobInfo>, b: seq<BlobInfo>)
    ensures KeptPaths(keep, a + b) == KeptPaths(keep, a) + KeptPaths(keep, b)
    ensures DeletedUrls(keep, a + b) == DeletedUrls(keep, a) + DeletedUrls(keep, b)
  {
    ClassifyAppend(Retention(keep), a, b);
  }

  /** A blob is kept exactly when its path passes the retention test, and deleted otherwise. */
  lemma PartitionMembership(keep: seq<string>, blobs: seq<BlobInfo>, i: nat)
    requires i < |blobs|
    ensures ShouldKeep(keep, blobs[i].pathname) ==> blobs[i].pathname in KeptPaths(keep, blobs)
    ensures !ShouldKeep(keep, blobs[i].pathname) ==> blobs[i].url in DeletedUrls(keep, blobs)
  {
    ClassifyMembership(Retention(keep), blobs, i);
  }

  /** A letter record written by POST for an id without line terminators is kept exactly
      when its id is a kept id. */
  lemma LetterRecordRetention(keep: seq<string>, id: string)
    requires id != "" && NoLineTerminator(id)
    ensures ShouldKeep(keep, Letters.LetterKey(id)) <==> id in keep
  {
    var p := Letters.LetterKey(id);
    assert p[0..8] == "letters/";
    assert p[8..|p| - 5] == id;
    assert p[|p| - 5..] == ".json";
    assert LetterMatchAt(p, 0);
  }

  /** In a media key whose parts hold no `/`, the only `/` is the one after the folder. */
  lemma MediaKeySlash(folder: string, id: string, timestamp: nat, fileName: string, k: nat)
    requires '/' !in folder && '/' !in id && '/' !in fileName
    requires k < |Letters.MediaKey(folder, id, timestamp, fileName)| && Letters.MediaKey(folder, id, timestamp, fileName)[k] == '/'
    ensures k == |folder|
  {
    var digits := NatToString(timestamp);
    var rest := id + "_" + digits + "_" + fileName;
    var p := Letters.MediaKey(folder, id, timestamp, fileName);
    assert p == folder + "/" + rest;
    assert '/' !in digits;
    assert '/' !in rest;
    assert forall j :: 0 <= j < |folder| ==> p[j] == folder[j];
    assert forall j :: |folder| < j < |p| ==> p[j] == rest[j - |folder| - 1];
  }

  /** A media key whose id and file name hold no `/` is never read as a letter record: its
      only `/` follows a folder name that does not end in `letters`. */
  lemma MediaKeyIsNoLetter(folder: string, id: string, timestamp: nat, fileName: string)
    requires folder == "images" || folder == "3d-assets" || folder == "podcasts" || folder == "bgm"
    requires '/' !in id && '/' !in fileName
    ensures LetterId(Letters.MediaKey(folder, id, timestamp, fileName)).None?
  {
    var p := Letters.MediaKey(folder, id, timestamp, fileName);
    assert forall j :: 0 <= j < |folder| ==> p[j] == folder[j];
    assert |folder| >= 7 ==> folder[|folder| - 7] != 'l';
    forall i: nat | LetterMatchAt(p, i)
      ensures false
    {
      assert p[i + 7] == "letters/"[7];
      MediaKeySlash(folder, id, timestamp, fileName, i + 7);
    }
  }

  /** The blobs a POST stores for a kept letter are kept too when the id and the file name
      hold no `/`: such a media key is never read as a letter record, and it contains the
      letter's id. */
  lemma MediaOfKeptLetterIsKept(keep: seq<string>, folder: string, id: string, timestamp: nat, fileName: string)
    requires folder == "images" || folder == "3d-assets" || folder == "podcasts" || folder == "bgm"
    requires id in keep && '/' !in id && '/' !in fileName
    ensures ShouldKeep(keep, Letters.MediaKey(folder, id, timestamp, fileName))
  {
    var p := Letters.MediaKey(folder, id, timestamp, fileName);
    MediaKeyIsNoLetter(folder, id, timestamp, fileName);
    var k :| 0 <= k < |keep| && keep[k] == id;
    assert p == folder + "/" + id + ("_" + NatToString(timestamp) + "_" + fileName);
    assert p[|folder| + 1..|folder| + 1 + |id|] == id;
    ContainsAt(p, id, |folder| + 1);
  }

  /** An upload whose file name is itself a letter path makes its media key read as a letter
      record, so it is judged by the captured id rather than by containing a kept id. */
  lemma UploadNamedLikeLetter(folder: string, id: string, timestamp: nat, name: string)
    requires name != "" && NoLineTerminator(name)
    ensures LetterId(Letters.MediaKey(folder, id, timestamp, "letters/" + name + ".json")).Some?
  {
    var prefix := folder + "/" + id + "_" + NatToString(timestamp) + "_";
    var p := Letters.MediaKey(folder, id, timestamp, "letters/" + name + ".json");
    assert p == prefix + "letters/" + name + ".json";
    assert p[|prefix|..|prefix| + 8] == "letters/";
    assert p[|p| - 5..] == ".json";
    assert p[|prefix| + 8..|p| - 5] == name;
    assert LetterMatchAt(p, |prefix|);
  }

  /** A record key whose id holds a line terminator (and no `/`) matches no letter pattern,
      so it is kept exactly when it contains some kept id. */
  lemma BrokenIdFallsBack(keep: seq<string>, id: string)
    requires '/' !in id && !NoLineTerminator(id)
    ensures LetterId(Letters.LetterKey(id)).None?
    ensures ShouldKeep(keep, Letters.LetterKey(id)) <==> exists k :: 0 <= k < |keep| && Contains(Letters.LetterKey(id), keep[k])
  {
    var p := Letters.LetterKey(id);
    assert forall j :: 8 <= j < 8 + |id| ==> p[j] == id[j - 8];
    assert forall j :: 8 + |id| <= j < |p| ==> p[j] == ".json"[j - 8 - |id|];
    forall i: nat | i <= |p|
      ensures !LetterMatchAt(p, i)
    {
      if i == 0 {
        assert p[8..|p| - 5] == id;
      } else if i + 14 <= |p| {
        assert p[i + 7] != '/';
      }
    }
  }

  /** What the script ends with. */
  datatype CleanupOutcome =
    | MissingToken                                          // throws, exit code 1, nothing listed
    | NothingToDelete(kept: seq<string>)                    // returns early, `del` not called
    | Deleted(kept: seq<string>, deleted: seq<string>)      // `del(deleted)` called once

  /** `cleanupBlobs()` given the environment and the blobs `list()` returns. */
  method CleanupBlobs(vars: map<string, string>, keep: seq<string>, blobs: seq<BlobInfo>) returns (outcome: CleanupOutcome)
    ensures ProcessEnv.BlobToken(vars).None? <==> outcome == MissingToken
    ensures ProcessEnv.BlobToken(vars).Some? && DeletedUrls(keep, blobs) == [] ==> outcome == NothingToDelete(KeptPaths(keep, blobs))
    ensures ProcessEnv.BlobToken(vars).Some? && DeletedUrls(keep, blobs) != [] ==> outcome == Deleted(KeptPaths(keep, blobs), DeletedUrls(keep, blobs))
    ensures outcome.Deleted? ==> outcome.deleted != [] && |outcome.kept| + |outcome.deleted| == |blobs|
  {
    var token := ProcessEnv.BlobToken(vars);
    if token.None? {
      return MissingToken;
    }
    var toKeep, toDelete := Partition(keep, blobs);
    if |toDelete| == 0 {
      return NothingToDelete(toKeep);
    }
    // the five-second pause before deleting is not modelled
    outcome := Deleted(toKeep, toDelete);
  }

  /** The script as run: `loadEnv()` first (a missing file ends the script before anything
      is listed), then `cleanupBlobs()` with `KEEP_IDS` on the variables just loaded. */
  method RunScript(env: ProcessEnv.Environment, file: Option<string>, blobs: seq<BlobInfo>) returns (outcome: Option<CleanupOutcome>)
    modifies env
    ensures file.None? ==> outcome.None? && env.vars == old(env.vars)
    ensures file.Some? ==>
      var vars := ProcessEnv.ApplyLines(ParseEnvLine, old(env.vars), Split(file.value, '\n'));
      && env.vars == vars
      && outcome.Some?
      && (ProcessEnv.BlobToken(vars).None? ==> outcome.value == MissingToken)
      && (ProcessEnv.BlobToken(vars).Some? && DeletedUrls(KeepIds, blobs) == [] ==> outcome.value == NothingToDelete(KeptPaths(KeepIds, blobs)))
      && (ProcessEnv.BlobToken(vars).Some? && DeletedUrls(KeepIds, blobs) != [] ==> outcome.value == Deleted(KeptPaths(KeepIds, blobs), DeletedUrls(KeepIds, blobs)))
  {
    var loaded := LoadEnv(env, file);
    if !loaded {
      return None;
    }
    var result := CleanupBlobs(env.vars, KeepIds, blobs);
    outcome := Some(result);
  }
}
