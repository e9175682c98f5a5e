/** The manual fix-up script `fix-asset3d.js`: for one hard-coded letter and one hard-coded
    refinement task it checks the task, downloads the finished GLB, stores it, and points the
    letter's `asset3dUrl` at the stored copy. Every step is guarded; the first failing guard
    ends the run with a log line and nothing further happens. */
module FixAsset3d {
  import opened Common
  import ProcessEnv
  import Letters

  /** One line matches `/^([^=]+)=(.*)$/` with the `=` at index `i`. */
  ghost predicate EnvLineMatchAt(line: string, i: int) {
    && 0 < i < |line|
    && line[i] == '='
    && (forall j :: 0 <= j < i ==> line[j] != '=')
    && NoLineTerminator(line[i + 1..])
  }

  predicate IsQuote(c: char) {
    c == '"' || c == '\''
  }

  /** `value.replace(/^["']|["']$/g, '')`: one leading and one trailing quote character are
      removed, each independently of the other; nothing else changes. */
  function StripQuotes(v: string): (r: string)
    ensures |v| - 2 <= |r| <= |v|
  {
    var a := if |v| > 0 && IsQuote(v[0]) then 1 else 0;
    var b := if |v| > a && IsQuote(v[|v| - 1]) then |v| - 1 else |v|;
    v[a..b]
  }

  /** The cases of `StripQuotes`: both quotes, only a leading one, only a trailing one, none,
      and a value that is a single quote character. */
  lemma StripQuotesCases(v: string)
    ensures |v| >= 2 && IsQuote(v[0]) && IsQuote(v[|v| - 1]) ==> StripQuotes(v) == v[1..|v| - 1]
    ensures |v| >= 1 && IsQuote(v[0]) && !IsQuote(v[|v| - 1]) ==> StripQuotes(v) == v[1..]
    ensures |v| >= 2 && !IsQuote(v[0]) && IsQuote(v[|v| - 1]) ==> StripQuotes(v) == v[..|v| - 1]
    ensures (v == [] || (!IsQuote(v[0]) && !IsQuote(v[|v| - 1]))) ==> StripQuotes(v) == v
    ensures |v| == 1 && IsQuote(v[0]) ==> StripQuotes(v) == []
  {
  }

  /** `line.match(/^([^=]+)=(.*)$/)`, giving the trimmed key and the trimmed, unquoted value. */
  function ParseEnvLine(line: string): (r: Option<(string, string)>)
    ensures r.Some? <==> exists i :: EnvLineMatchAt(line, i)
    ensures forall i :: EnvLineMatchAt(line, i) ==> r == Some((Trim(line[..i]), StripQuotes(Trim(line[i + 1..]))))
  {
    if '=' in line then
      var i := IndexOf(line, '=');
      MatchAtIndexOf(line, i);
      if 0 < i && NoLineTerminator(line[i + 1..]) then
        Some((Trim(line[..i]), StripQuotes(Trim(line[i + 1..]))))
      else
        None
    else
      None
  }

  /** The only place the pattern can match is the first `=`. */
  lemma MatchAtIndexOf(line: string, i: nat)
    requires i < |line| && line[i] == '=' && forall j :: 0 <= j < i ==> line[j] != '='
    ensures forall k :: EnvLineMatchAt(line, k) ==> k == i
    ensures EnvLineMatchAt(line, i) <==> 0 < i && NoLineTerminator(line[i + 1..])
  {
  }

  /** The loader at the top of the script: a missing `.env.local` is skipped silently. */
  method LoadEnv(env: ProcessEnv.Environment, file: Option<string>)
    modifies env
    ensures file.None? ==> env.vars == old(env.vars)
    ensures file.Some? ==> env.vars == ProcessEnv.ApplyLines(ParseEnvLine, old(env.vars), Split(file.value, '\n'))
  {
    if file.Some? {
      ProcessEnv.LoadLines(env, ParseEnvLine, Split(file.value, '\n'));
    }
  }

  const OrnamentId: string := "ornament_1765854856916_flbkims9k"
  const RefineTaskId: string := "019b2528-d4e3-7447-8f9b-9e57083661eb"
  const StatusUrl: string := "https://api.meshy.ai/v2/text-to-3d/" + RefineTaskId

  /** The task-status reply: HTTP ok flag, `status.status` and `status.model_urls?.glb`. */
  datatype StatusReply = StatusReply(ok: bool, status: string, glb: Option<string>)

  /** The external calls the script makes, in the order it makes them, except the fetch of
      the listed letter's own URL: that read is not a separate call here, its answer is the
      first record of `listed`. */
  datatype Call =
    | FetchStatus(url: string)
    | FetchGlb(url: string)
    | PutAsset(key: string)
    | ListLetter(prefix: string)
    | PutLetter(key: string, record: Letters.Record)

  datatype Outcome =
    | NoApiKey | NoBlobToken
    | StatusCheckFailed | NotSucceeded(status: string) | NoGlbUrl | DownloadFailed
    | LetterNotFound(assetUrl: string)
    | Updated(assetUrl: string)

  datatype Run = Run(outcome: Outcome, calls: seq<Call>)

  /** The key the downloaded GLB is stored under: `3d-assets/{REFINE_TASK_ID}_{timestamp}.glb`. */
  function AssetKey(timestamp: nat): string {
    "3d-assets/" + RefineTaskId + "_" + NatToString(timestamp) + ".glb"
  }

  /** `{ ...letterData, asset3dUrl: blob.url, updatedAt: now }`. */
  function UpdatedLetter(letter: Letters.Record, assetUrl: string, now: string): (r: Letters.Record)
    ensures r.Keys == letter.Keys + {Letters.Asset3dUrl, Letters.UpdatedAt}
    ensures r[Letters.Asset3dUrl] == Letters.JString(assetUrl)
    ensures r[Letters.UpdatedAt] == Letters.JString(now)
    ensures forall k :: k in letter && k != Letters.Asset3dUrl && k != Letters.UpdatedAt ==> r[k] == letter[k]
  {
    letter[Letters.Asset3dUrl := Letters.JString(assetUrl)][Letters.UpdatedAt := Letters.JString(now)]
  }

  predicate HasPutAsset(calls: seq<Call>) {
    exists i :: 0 <= i < |calls| && calls[i].PutAsset?
  }

  predicate HasPutLetter(calls: seq<Call>) {
    exists i :: 0 <= i < |calls| && calls[i].PutLetter?
  }

  /** Both the Meshy key and a storage token are set. */
  predicate Credentials(vars: map<string, string>) {
    ProcessEnv.TruthyVar(vars, "MESHY_API_KEY").Some? && ProcessEnv.BlobToken(vars).Some?
  }

  /** All guards pass up to and including the GLB download. */
  predicate Downloaded(vars: map<string, string>, reply: StatusReply, glbOk: bool) {
    && ProcessEnv.TruthyVar(vars, "MESHY_API_KEY").Some?
    && ProcessEnv.BlobToken(vars).Some?
    && reply.ok && reply.status == "SUCCEEDED" && Letters.Truthy(reply.glb) && glbOk
  }

  /** `fixAsset3dUrl()` given the environment, the status reply, whether the GLB download
      succeeded, the records of the blobs the listing under the letter's key returns (in
      listing order), `Date.now()`, the ISO time and the store's URL base. */
  function FixAsset3dUrl(vars: map<string, string>, reply: StatusReply, glbOk: bool, listed: seq<Letters.Record>,
                         timestamp: nat, now: string, base: string): (r: Run)
    // no key or no token: nothing is fetched and nothing is written
    ensures ProcessEnv.TruthyVar(vars, "MESHY_API_KEY").None? ==> r == Run(NoApiKey, [])
    ensures ProcessEnv.TruthyVar(vars, "MESHY_API_KEY").Some? && ProcessEnv.BlobToken(vars).None? ==> r == Run(NoBlobToken, [])
    // the GLB is stored exactly when every guard up to the download passes
    ensures HasPutAsset(r.calls) <==> Downloaded(vars, reply, glbOk)
    // the letter is written exactly when, in addition, the listing found a letter
    ensures HasPutLetter(r.calls) <==> Downloaded(vars, reply, glbOk) && listed != []
    ensures r.outcome.Updated? <==> Downloaded(vars, reply, glbOk) && listed != []
    // and then it is the last call: the first listed record, at the letter's own key, with two fields changed
    ensures r.outcome.Updated? ==>
      && r.outcome.assetUrl == base + AssetKey(timestamp)
      && r.calls[|r.calls| - 1] == PutLetter(Letters.LetterKey(OrnamentId), UpdatedLetter(listed[0], base + AssetKey(timestamp), now))
  {
    if ProcessEnv.TruthyVar(vars, "MESHY_API_KEY").None? then Run(NoApiKey, [])
    else if ProcessEnv.BlobToken(vars).None? then Run(NoBlobToken, [])
    else
      var checked := [FetchStatus(StatusUrl)];
      if !reply.ok then Run(StatusCheckFailed, checked)
      else if reply.status != "SUCCEEDED" then Run(NotSucceeded(reply.status), checked)
      else if !Letters.Truthy(reply.glb) then Run(NoGlbUrl, checked)
      else
        var fetched := checked + [FetchGlb(reply.glb.value)];
        if !glbOk then Run(DownloadFailed, fetched)
        else
          var assetUrl := base + AssetKey(timestamp);
          var stored := fetched + [PutAsset(AssetKey(timestamp)), ListLetter(Letters.LetterKey(OrnamentId))];
          assert stored[2].PutAsset?;
          assert forall i :: 0 <= i < |stored| ==> !stored[i].PutLetter?;
          if listed == [] then Run(LetterNotFound(assetUrl), stored)
          else
            var written := stored + [PutLetter(Letters.LetterKey(OrnamentId), UpdatedLetter(listed[0], assetUrl, now))];
            assert written[2].PutAsset? && written[4].PutLetter?;
            Run(Updated(assetUrl), written)
  }

  /** The requests in order: the status check of the refinement task comes first; a guard
      that fails before the download stops right after it, a failed download right after
      the GLB fetch; past the download the reply's GLB is fetched, stored under
      `3d-assets/{REFINE_TASK_ID}_{timestamp}.glb`, and the letter's key is listed. */
  lemma FixAsset3dTrace(vars: map<string, string>, reply: StatusReply, glbOk: bool, listed: seq<Letters.Record>,
                        timestamp: nat, now: string, base: string)
    ensures var r := FixAsset3dUrl(vars, reply, glbOk, listed, timestamp, now, base);
      && (r.calls != [] <==> Credentials(vars))
      && (r.calls != [] ==> r.calls[0] == FetchStatus(StatusUrl))
      && (r.outcome == StatusCheckFailed <==> Credentials(vars) && !reply.ok)
      && (r.outcome.NotSucceeded? <==> Credentials(vars) && reply.ok && reply.status != "SUCCEEDED")
      && (r.outcome.NotSucceeded? ==> r.outcome.status == reply.status)
      && (r.outcome == NoGlbUrl <==> Credentials(vars) && reply.ok && reply.status == "SUCCEEDED" && !Letters.Truthy(reply.glb))
      && (r.outcome == StatusCheckFailed || r.outcome.NotSucceeded? || r.outcome == NoGlbUrl ==> r.calls == [FetchStatus(StatusUrl)])
      && (r.outcome == DownloadFailed ==> reply.glb.Some? && r.calls == [FetchStatus(StatusUrl), FetchGlb(reply.glb.value)])
      && (Downloaded(vars, reply, glbOk) ==>
        && |r.calls| >= 4
        && r.calls[1] == FetchGlb(reply.glb.value)
        && r.calls[2] == PutAsset(AssetKey(timestamp))
        && r.calls[3] == ListLetter(Letters.LetterKey(OrnamentId)))
      && (r.outcome.LetterNotFound? ==> |r.calls| == 4 && r.outcome.assetUrl == base + AssetKey(timestamp))
      && (r.outcome.Updated? ==> |r.calls| == 5)
  {
  }

  /** Once the fix-up has written a letter, a later POST that uploads no 3D asset and whose
      fetch of the stored letter returns the fixed letter keeps the fixed `asset3dUrl`. */
  lemma FixSurvivesLaterPost(vars: map<string, string>, reply: StatusReply, glbOk: bool, letter: Letters.Record,
                             timestamp: nat, now: string, base: string,
                             form: Letters.Form, postNow: string, postTimestamp: nat)
    requires FixAsset3dUrl(vars, reply, glbOk, [letter], timestamp, now, base).outcome.Updated?
    requires form.asset3d.None?
    ensures var fixed := UpdatedLetter(letter, base + AssetKey(timestamp), now);
      Letters.SavedRecord(form, OrnamentId, Some(fixed), postNow, postTimestamp, base)[Letters.Asset3dUrl]
        == Letters.JString(base + AssetKey(timestamp))
  {
    var fixed := UpdatedLetter(letter, base + AssetKey(timestamp), now);
    assert Letters.Start(OrnamentId, Some(fixed), postNow)[Letters.Asset3dUrl] == fixed[Letters.Asset3dUrl];
  }
}
