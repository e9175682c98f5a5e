/** The offline generation pipeline `scripts/text_to_3D_retexture.py`: a prompt is composed
    from the object and the low-poly description, a text-to-3D task is created and polled,
    its GLB is retextured with the same prompt, the retexture task is polled, and the
    result is downloaded under a numbered file name. The HTTP replies are inputs: each poll
    consumes the next reply of a given sequence. */
module Retexture {
  import opened Common

  const MeshyBase: string := "https://api.meshy.ai"

  /** The status endpoint `poll_meshy` polls: retexture tasks live under the v1 API, every
      other task type under the v2 API. */
  function PollUrl(taskType: string, taskId: string): (url: string)
    ensures taskType == "retexture" ==> url == MeshyBase + "/openapi/v1/retexture/" + taskId
    ensures taskType != "retexture" ==> url == MeshyBase + "/openapi/v2/" + taskType + "/" + taskId
  {
    if taskType == "retexture" then MeshyBase + "/openapi/v1/retexture/" + taskId
    else MeshyBase + "/openapi/v2/" + taskType + "/" + taskId
  }

  /** The URL alone tells which API version a task type is polled on. */
  lemma PollUrlVersion(taskType: string, taskId: string)
    ensures var url := PollUrl(taskType, taskId);
      |MeshyBase| + 12 <= |url| &&
      (url[|MeshyBase|..|MeshyBase| + 12] == "/openapi/v1/" <==> taskType == "retexture")
  {
    var url := PollUrl(taskType, taskId);
    if taskType == "retexture" {
      assert url[|MeshyBase|..|MeshyBase| + 12] == "/openapi/v1/";
    } else {
      assert url[|MeshyBase|..|MeshyBase| + 12] == "/openapi/v2/";
      assert url[|MeshyBase| + 10] != "/openapi/v1/"[10];
    }
  }

  /** One status reply: `j["status"]` and `j.get("model_urls")` (absent or `null` as `None`). */
  datatype Reply = Reply(status: string, modelUrls: Option<map<string, string>>)

  predicate IsSuccess(status: string) {
    status == "SUCCEEDED" || status == "COMPLETED"
  }

  predicate IsFailure(status: string) {
    status == "FAILED" || status == "ERROR"
  }

  /** A status that ends the polling loop one way or the other. */
  predicate Decisive(status: string) {
    IsSuccess(status) || IsFailure(status)
  }

  /** How polling ends: with the first successful reply, with a failure raised on the first
      failed reply, or still polling when the given replies run out. `polls` counts the GET
      requests made. */
  datatype PollOutcome =
    | Succeeded(result: Reply, polls: nat)
    | Failed(reply: Reply, polls: nat)
    | Pending(polls: nat)

  /** The reference outcome of polling over `replies`: it is decided by the first reply with
      a decisive status, and every reply before that one is passed over. */
  function PollSpec(replies: seq<Reply>): (r: PollOutcome)
    ensures r.polls <= |replies|
    ensures r.Succeeded? ==> 1 <= r.polls && replies[r.polls - 1] == r.result && IsSuccess(r.result.status)
    ensures r.Failed? ==> 1 <= r.polls && replies[r.polls - 1] == r.reply && IsFailure(r.reply.status)
    ensures r.Pending? ==> r.polls == |replies|
    ensures forall j :: 0 <= j < r.polls - 1 ==> !Decisive(replies[j].status)
    ensures r.Pending? ==> forall j :: 0 <= j < |replies| ==> !Decisive(replies[j].status)
  {
    if replies == [] then Pending(0)
    else if IsSuccess(replies[0].status) then Succeeded(replies[0], 1)
    else if IsFailure(replies[0].status) then Failed(replies[0], 1)
    else
      var rest := PollSpec(replies[1..]);
      assert forall j :: 1 <= j < |replies| ==> replies[j] == replies[1..][j - 1];
      match rest
      case Succeeded(result, n) => Succeeded(result, n + 1)
      case Failed(reply, n) => Failed(reply, n + 1)
      case Pending(n) => Pending(n + 1)
  }

  /** Polling is decided by the first decisive reply: replies after it are never looked at. */
  lemma {:induction false} PollIgnoresLaterReplies(replies: seq<Reply>, later: seq<Reply>)
    requires !PollSpec(replies).Pending?
    ensures PollSpec(replies + later) == PollSpec(replies)
  {
    if !Decisive(replies[0].status) {
      assert (replies + later)[1..] == replies[1..] + later;
      PollIgnoresLaterReplies(replies[1..], later);
    }
  }

  /** `poll_meshy(task_type, task_id)`: the loop updates `status` (initially `IN_PROGRESS`)
      from each reply until it sees a success; a failure raises at once. */
  method PollMeshy(taskType: string, taskId: string, replies: seq<Reply>) returns (url: string, outcome: PollOutcome)
    ensures url == PollUrl(taskType, taskId)
    ensures outcome == PollSpec(replies)
  {
    if taskType == "retexture" {
      url := MeshyBase + "/openapi/v1/retexture/" + taskId;
    } else {
      url := MeshyBase + "/openapi/v2/" + taskType + "/" + taskId;
    }
    var status := "IN_PROGRESS";
    var resultJson: Option<Reply> := None;
    var i := 0;
    while !IsSuccess(status)
      invariant 0 <= i <= |replies|
      invariant forall j :: 0 <= j < i ==> !Decisive(replies[j].status)
      invariant !IsSuccess(status) && resultJson.None?
      decreases |replies| - i
    {
      if i == |replies| {
        // the real loop would go on polling; the given replies end here
        return url, Pending(i);
      }
      // the four-second sleep before each request is not modelled
      var j := replies[i];
      i := i + 1;
      status := j.status;
      if IsSuccess(status) {
        resultJson := Some(j);
        break;
      }
      if IsFailure(status) {
        return url, Failed(j, i);
      }
    }
    outcome := Succeeded(resultJson.value, i);
  }

  /** Python's `str.lower()` on one character, over the ASCII letters. */
  function LowerChar(c: char): char {
    if 'A' <= c <= 'Z' then (c as int - 'A' as int + 'a' as int) as char else c
  }

  /** `object_name.lower().replace(" ", "_")`. */
  function SafeName(name: string): (r: string)
    ensures |r| == |name|
    ensures forall i :: 0 <= i < |r| ==> r[i] != ' ' && !('A' <= r[i] <= 'Z')
    ensures forall i :: 0 <= i < |r| ==> r[i] == (if name[i] == ' ' then '_' else LowerChar(name[i]))
  {
    var lower := seq(|name|, i requires 0 <= i < |name| => LowerChar(name[i]));
    seq(|lower|, i requires 0 <= i < |lower| => if lower[i] == ' ' then '_' else lower[i])
  }

  /** Making a name safe twice is making it safe once. */
  lemma SafeNameIdempotent(name: string)
    ensures SafeName(SafeName(name)) == SafeName(name)
  {
    var s := SafeName(name);
    assert forall i :: 0 <= i < |s| ==> SafeName(s)[i] == s[i];
  }

  /** The list comprehension `existing`: the directory entries that start with `safe` and
      end with `.glb`, in listing order. */
  function Existing(listing: seq<string>, safe: string): (r: seq<string>)
    ensures |r| <= |listing|
    ensures forall x :: x in r <==> x in listing && safe <= x && EndsWith(x, ".glb")
  {
    if listing == [] then []
    else
      var x := listing[|listing| - 1];
      var front := Existing(listing[..|listing| - 1], safe);
      assert listing == listing[..|listing| - 1] + [x];
      front + (if safe <= x && EndsWith(x, ".glb") then [x] else [])
  }

  /** Listing one more entry adds one to the count exactly when that entry matches. */
  lemma ExistingAppend(listing: seq<string>, safe: string, x: string)
    ensures |Existing(listing + [x], safe)| == |Existing(listing, safe)| + (if safe <= x && EndsWith(x, ".glb") then 1 else 0)
  {
    assert (listing + [x])[..|listing + [x]| - 1] == listing;
  }

  /** The saved file's base name `{safe}_{idx}{suffix}.glb`. */
  function OutputName(safe: string, idx: nat, suffix: string): string {
    safe + "_" + NatToString(idx) + suffix + ".glb"
  }

  /** `os.path.join(a, b)` on POSIX: an absolute `b` replaces `a`; otherwise a `/` is put
      between them unless `a` is empty or already ends with one. */
  function PathJoin(a: string, b: string): (r: string)
    ensures "/" <= b ==> r == b
    ensures !("/" <= b) ==> (a == [] || EndsWith(a, "/")) ==> r == a + b
    ensures !("/" <= b) && a != [] && !EndsWith(a, "/") ==> r == a + "/" + b
  {
    if "/" <= b then b
    else if a == [] || a[|a| - 1] == '/' then a + b
    else a + "/" + b
  }

  /** Joining a relative name keeps the directory as a prefix and the name as a suffix,
      with at most one `/` put between them. */
  lemma PathJoinRelative(a: string, b: string)
    requires !("/" <= b)
    ensures var r := PathJoin(a, b);
      && a <= r && EndsWith(r, b)
      && |a| + |b| <= |r| <= |a| + 1 + |b|
      && (|r| == |a| + 1 + |b| ==> r[|a|] == '/')
      && (a != [] ==> r[|a| - 1] == '/' || r[|a|] == '/')
  {
    var r := PathJoin(a, b);
    if a == [] || a[|a| - 1] == '/' {
      assert r == a + b;
      assert r[|r| - |b|..] == b;
    } else {
      assert r == a + "/" + b;
      assert r[|r| - |b|..] == b;
    }
  }

  /** What `download_glb` ends with: the file saved (with the URL it was fetched from), or
      one of its failures: no `model_urls`/`glb` in the reply, or a failed download. */
  datatype DownloadOutcome =
    | Saved(url: string, path: string)
    | NoGlbUrl
    | FetchFailed(url: string)

  function GlbOf(reply: Reply): Option<string> {
    if reply.modelUrls.Some? && "glb" in reply.modelUrls.value then Some(reply.modelUrls.value["glb"]) else None
  }

  /** The path `download_glb` writes to, given the directory listing taken after the
      directory is created. */
  function SavePath(objectName: string, listing: seq<string>, outputDir: string, suffix: string): string {
    var safe := SafeName(objectName);
    PathJoin(outputDir, OutputName(safe, |Existing(listing, safe)| + 1, suffix))
  }

  /** A numbered name is joined as an absolute path exactly when the safe name starts with `/`. */
  lemma JoinOutputName(outputDir: string, safe: string, idx: nat, suffix: string)
    ensures var name := OutputName(safe, idx, suffix);
      && (safe != [] && safe[0] == '/' ==> PathJoin(outputDir, name) == name)
      && (safe == [] || safe[0] != '/' ==> outputDir <= PathJoin(outputDir, name) && EndsWith(PathJoin(outputDir, name), name))
  {
    var name := OutputName(safe, idx, suffix);
    var rest := "_" + NatToString(idx) + suffix + ".glb";
    assert name == safe + rest;
    if safe != [] && safe[0] == '/' {
      assert name[0] == '/';
    } else {
      assert name[0] != '/';
      PathJoinRelative(outputDir, name);
    }
  }

  /** The file lands in the output directory under its numbered name, unless the object
      name starts with `/`: the name is then absolute and `os.path.join` drops the directory. */
  lemma SavePathInOutputDir(objectName: string, listing: seq<string>, outputDir: string, suffix: string)
    ensures var safe := SafeName(objectName);
      var name := OutputName(safe, |Existing(listing, safe)| + 1, suffix);
      var path := SavePath(objectName, listing, outputDir, suffix);
      && (objectName != [] && objectName[0] == '/' ==> path == name)
      && (objectName == [] || objectName[0] != '/' ==> outputDir <= path && EndsWith(path, name))
  {
    var safe := SafeName(objectName);
    assert objectName != [] ==> (safe[0] == '/' <==> objectName[0] == '/');
    JoinOutputName(outputDir, safe, |Existing(listing, safe)| + 1, suffix);
  }

  /** `download_glb(result_json, object_name, output_dir, suffix)`. */
  function DownloadGlb(result: Reply, objectName: string, listing: seq<string>, outputDir: string, suffix: string, fetchOk: bool): (r: DownloadOutcome)
    ensures r.Saved? <==> GlbOf(result).Some? && fetchOk
    ensures r.Saved? ==> r.url == GlbOf(result).value && r.path == SavePath(objectName, listing, outputDir, suffix)
    ensures r.FetchFailed? ==> Some(r.url) == GlbOf(result)
    ensures r.NoGlbUrl? <==> GlbOf(result).None?
  {
    match GlbOf(result)
    case None => NoGlbUrl
    case Some(glbUrl) =>
      if fetchOk then Saved(glbUrl, SavePath(objectName, listing, outputDir, suffix)) else FetchFailed(glbUrl)
  }

  /** A saved file counts as an existing entry for the next download of the same object,
      so the next download picks the next index. */
  lemma SavedFileIsCounted(objectName: string, listing: seq<string>, suffix: string)
    ensures var safe := SafeName(objectName);
      var name := OutputName(safe, |Existing(listing, safe)| + 1, suffix);
      |Existing(listing + [name], safe)| == |Existing(listing, safe)| + 1
  {
    var safe := SafeName(objectName);
    var name := OutputName(safe, |Existing(listing, safe)| + 1, suffix);
    OutputNameMatches(safe, |Existing(listing, safe)| + 1, suffix);
    ExistingAppend(listing, safe, name);
  }

  /** Every output name starts with the safe name and ends with `.glb`. */
  lemma OutputNameMatches(safe: string, idx: nat, suffix: string)
    ensures safe <= OutputName(safe, idx, suffix) && EndsWith(OutputName(safe, idx, suffix), ".glb")
  {
    var rest := "_" + NatToString(idx) + suffix;
    var name := OutputName(safe, idx, suffix);
    assert name == safe + (rest + ".glb");
    assert name == (safe + rest) + ".glb";
    assert name[|name| - 4..] == ".glb";
  }

  /** Two indexes give two names. */
  lemma OutputNameInjective(safe: string, i: nat, j: nat, suffix: string)
    requires OutputName(safe, i, suffix) == OutputName(safe, j, suffix)
    ensures i == j
  {
    var a, b := NatToString(i), NatToString(j);
    var x, y := OutputName(safe, i, suffix), OutputName(safe, j, suffix);
    assert |a| == |b|;
    assert x[|safe| + 1..|safe| + 1 + |a|] == a;
    assert y[|safe| + 1..|safe| + 1 + |b|] == b;
  }

  /** The index is a count, not a maximum: when an earlier file of the series is gone, the
      name chosen is that of a file that is still there, which the download overwrites. */
  lemma CountReusesName()
    ensures var listing := ["cat_2_retexture.glb"];
      SavePath("Cat", listing, "./outputs", "_retexture") == PathJoin("./outputs", listing[0])
  {
    SafeCat();
    CountOne();
    NameTwo();
  }

  lemma SafeCat()
    ensures SafeName("Cat") == "cat"
  {
    var safe := SafeName("Cat");
    assert safe[0] == 'c' && safe[1] == 'a' && safe[2] == 't';
  }

  lemma CountOne()
    ensures |Existing(["cat_2_retexture.glb"], "cat")| == 1
  {
    var x := "cat_2_retexture.glb";
    assert ["cat_2_retexture.glb"][..0] == [];
    assert "cat" <= x;
    assert x[|x| - 4..] == ".glb";
  }

  lemma NameTwo()
    ensures OutputName("cat", 2, "_retexture") == "cat_2_retexture.glb"
  {
    assert NatToString(2) == "2";
  }

  /** `f"{obj}. {info['lowpoly_prompt']}"`. */
  function ComposePrompt(obj: string, lowpoly: string): (p: string)
    ensures |p| == |obj| + 2 + |lowpoly|
    ensures p[..|obj|] == obj && p[|obj|..|obj| + 2] == ". " && p[|obj| + 2..] == lowpoly
  {
    obj + ". " + lowpoly
  }

  /** When the object name has no full stop, it can be read back from the prompt: it is
      everything before the first `.`. */
  lemma ObjectFromPrompt(obj: string, lowpoly: string)
    requires '.' !in obj
    ensures var p := ComposePrompt(obj, lowpoly);
      '.' in p && p[..IndexOf(p, '.')] == obj
  {
    var p := ComposePrompt(obj, lowpoly);
    assert p[|obj|] == '.';
  }

  /** The generator's answer: `info["object"]` and `info["lowpoly_prompt"]`. */
  datatype Info = Info(obj: string, lowpolyPrompt: string)

  /** The external requests `run_pipeline` makes, in order. */
  datatype Call =
    | CreateTextTo3d(prompt: string)
    | PollStatus(taskType: string, url: string)
    | CreateRetexture(modelUrl: string, stylePrompt: string)
    | FetchGlb(url: string)

  /** The stage a request belongs to. */
  function Stage(c: Call): nat {
    match c
    case CreateTextTo3d(_) => 0
    case PollStatus(taskType, _) => if taskType == "text-to-3d" then 1 else 3
    case CreateRetexture(_, _) => 2
    case FetchGlb(_) => 4
  }

  predicate InStageOrder(calls: seq<Call>) {
    forall i, j :: 0 <= i < j < |calls| ==> Stage(calls[i]) <= Stage(calls[j])
  }

  /** Every request of `calls` belongs to a stage from `lo` to `hi`. */
  predicate StagesWithin(calls: seq<Call>, lo: nat, hi: nat) {
    forall i :: 0 <= i < |calls| ==> lo <= Stage(calls[i]) <= hi
  }

  datatype PipelineOutcome =
    | Finished(path: string)
    | PollFailed(taskType: string)
    | StillPolling(taskType: string)
    | NoModelUrl(taskType: string)
    | DownloadFailed

  datatype PipelineRun = PipelineRun(outcome: PipelineOutcome, calls: seq<Call>)

  /** `n` status requests to one endpoint. */
  function Polls(taskType: string, url: string, n: nat): (r: seq<Call>)
    ensures |r| == n && forall i :: 0 <= i < n ==> r[i] == PollStatus(taskType, url)
  {
    seq(n, _ => PollStatus(taskType, url))
  }

  /** Joining a run that ends by stage `m` to one that starts at stage `m` keeps stage order. */
  lemma OrderedAppend(a: seq<Call>, b: seq<Call>, lo: nat, m: nat, hi: nat)
    requires InStageOrder(a) && InStageOrder(b)
    requires lo <= m <= hi && StagesWithin(a, lo, m) && StagesWithin(b, m, hi)
    ensures InStageOrder(a + b) && StagesWithin(a + b, lo, hi)
  {
    forall i, j | 0 <= i < j < |a + b|
      ensures Stage((a + b)[i]) <= Stage((a + b)[j])
    {
      if j < |a| {
        assert (a + b)[i] == a[i] && (a + b)[j] == a[j];
      } else if i >= |a| {
        assert (a + b)[i] == b[i - |a|] && (a + b)[j] == b[j - |a|];
      } else {
        assert (a + b)[i] == a[i] && (a + b)[j] == b[j - |a|];
      }
    }
    forall i | 0 <= i < |a + b|
      ensures lo <= Stage((a + b)[i]) <= hi
    {
      if i < |a| {
        assert (a + b)[i] == a[i];
      } else {
        assert (a + b)[i] == b[i - |a|];
      }
    }
  }

  /** The start of either task: its creation request followed by its status requests. */
  lemma CreateThenPoll(create: Call, taskType: string, url: string, n: nat)
    requires Stage(create) + 1 == Stage(PollStatus(taskType, url))
    ensures var calls := [create] + Polls(taskType, url, n);
      InStageOrder(calls) && StagesWithin(calls, Stage(create), Stage(create) + 1)
  {
    var polls := Polls(taskType, url, n);
    OrderedAppend([create], polls, Stage(create), Stage(create) + 1, Stage(create) + 1);
  }

  /** The last stage: `download_glb` on the retexture result. */
  function DownloadStage(result: Reply, info: Info, listing: seq<string>, fetchOk: bool): (r: PipelineRun)
    // the one request, if any, fetches exactly the result's `model_urls.glb`
    ensures r.calls == (if GlbOf(result).Some? then [FetchGlb(GlbOf(result).value)] else [])
    ensures r.outcome.Finished? <==> DownloadGlb(result, info.obj, listing, "./outputs", "_retexture", fetchOk).Saved?
    ensures r.outcome.Finished? ==> r.outcome.path == SavePath(info.obj, listing, "./outputs", "_retexture")
  {
    match DownloadGlb(result, info.obj, listing, "./outputs", "_retexture", fetchOk)
    case NoGlbUrl => PipelineRun(DownloadFailed, [])
    case FetchFailed(url) => PipelineRun(DownloadFailed, [FetchGlb(url)])
    case Saved(url, path) => PipelineRun(Finished(path), [FetchGlb(url)])
  }

  /** The retexture part of the run, from its creation on, given the text-to-3D result's GLB. */
  function AfterTextTo3d(info: Info, modelUrl: string, retextureId: string, retextureReplies: seq<Reply>,
                         listing: seq<string>, fetchOk: bool): (r: PipelineRun)
    ensures |r.calls| >= 1 && r.calls[0] == CreateRetexture(modelUrl, ComposePrompt(info.obj, info.lowpolyPrompt))
    ensures InStageOrder(r.calls) && StagesWithin(r.calls, 2, 4)
    ensures forall i :: 1 <= i < |r.calls| ==> !r.calls[i].CreateRetexture?
    ensures forall i :: 0 <= i < |r.calls| && r.calls[i].PollStatus? ==>
      r.calls[i] == PollStatus("retexture", PollUrl("retexture", retextureId))
    ensures r.outcome.Finished? <==>
      && PollSpec(retextureReplies).Succeeded?
      && DownloadGlb(PollSpec(retextureReplies).result, info.obj, listing, "./outputs", "_retexture", fetchOk).Saved?
    ensures r.outcome.Finished? ==> r.outcome.path == SavePath(info.obj, listing, "./outputs", "_retexture")
  {
    var prompt := ComposePrompt(info.obj, info.lowpolyPrompt);
    var polled := PollSpec(retextureReplies);
    var url := PollUrl("retexture", retextureId);
    var upToPoll := [CreateRetexture(modelUrl, prompt)] + Polls("retexture", url, polled.polls);
    CreateThenPoll(CreateRetexture(modelUrl, prompt), "retexture", url, polled.polls);
    if !polled.Succeeded? then
      PipelineRun(if polled.Failed? then PollFailed("retexture") else StillPolling("retexture"), upToPoll)
    else
      var download := DownloadStage(polled.result, info, listing, fetchOk);
      OrderedAppend(upToPoll, download.calls, 2, 3, 4);
      PipelineRun(download.outcome, upToPoll + download.calls)
  }

  /** `run_pipeline(text, image_url)` from the generator's answer on: the text-to-3D task
      (which the create call names `textTaskId`) is polled over `textReplies`, the
      retexture task (`retextureId`) over `retextureReplies`, and the download sees
      `listing` and succeeds when `fetchOk` holds. */
  function RunPipeline(info: Info, textTaskId: string, textReplies: seq<Reply>, retextureId: string,
                       retextureReplies: seq<Reply>, listing: seq<string>, fetchOk: bool): (r: PipelineRun)
    // the first request creates the text-to-3D task from the composed prompt
    ensures |r.calls| >= 1 && r.calls[0] == CreateTextTo3d(ComposePrompt(info.obj, info.lowpolyPrompt))
    // requests follow the stages: create, poll, retexture, poll, download
    ensures InStageOrder(r.calls)
  {
    var prompt := ComposePrompt(info.obj, info.lowpolyPrompt);
    var polled := PollSpec(textReplies);
    var url := PollUrl("text-to-3d", textTaskId);
    var upToPoll := [CreateTextTo3d(prompt)] + Polls("text-to-3d", url, polled.polls);
    CreateThenPoll(CreateTextTo3d(prompt), "text-to-3d", url, polled.polls);
    if !polled.Succeeded? then
      PipelineRun(if polled.Failed? then PollFailed("text-to-3d") else StillPolling("text-to-3d"), upToPoll)
    else if GlbOf(polled.result).None? then
      PipelineRun(NoModelUrl("text-to-3d"), upToPoll)
    else
      var rest := AfterTextTo3d(info, GlbOf(polled.result).value, retextureId, retextureReplies, listing, fetchOk);
      OrderedAppend(upToPoll, rest.calls, 0, 2, 4);
      PipelineRun(rest.outcome, upToPoll + rest.calls)
  }

  /** The requests of the retexture part: the retexture is created once, followed by one
      status request per reply consumed, and only after a successful poll by the fetch of
      exactly that result's GLB. */
  lemma RetextureTrace(info: Info, modelUrl: string, retextureId: string, retextureReplies: seq<Reply>,
                       listing: seq<string>, fetchOk: bool)
    ensures var r := AfterTextTo3d(info, modelUrl, retextureId, retextureReplies, listing, fetchOk);
      var polled := PollSpec(retextureReplies);
      r.calls == [CreateRetexture(modelUrl, ComposePrompt(info.obj, info.lowpolyPrompt))]
        + Polls("retexture", PollUrl("retexture", retextureId), polled.polls)
        + (if polled.Succeeded? && GlbOf(polled.result).Some? then [FetchGlb(GlbOf(polled.result).value)] else [])
  {
    var polled := PollSpec(retextureReplies);
    var upToPoll := [CreateRetexture(modelUrl, ComposePrompt(info.obj, info.lowpolyPrompt))]
      + Polls("retexture", PollUrl("retexture", retextureId), polled.polls);
    if !polled.Succeeded? {
      assert upToPoll + [] == upToPoll;
    }
  }

  /** The requests of the whole run: the text-to-3D task is created by the first request,
      followed by one status request per reply consumed; only after a successful poll that
      names a GLB does the retexture part follow. */
  lemma PipelineTrace(info: Info, textTaskId: string, textReplies: seq<Reply>, retextureId: string,
                      retextureReplies: seq<Reply>, listing: seq<string>, fetchOk: bool)
    ensures var r := RunPipeline(info, textTaskId, textReplies, retextureId, retextureReplies, listing, fetchOk);
      var polled := PollSpec(textReplies);
      r.calls == [CreateTextTo3d(ComposePrompt(info.obj, info.lowpolyPrompt))]
        + Polls("text-to-3d", PollUrl("text-to-3d", textTaskId), polled.polls)
        + (if polled.Succeeded? && GlbOf(polled.result).Some?
           then AfterTextTo3d(info, GlbOf(polled.result).value, retextureId, retextureReplies, listing, fetchOk).calls
           else [])
  {
    var polled := PollSpec(textReplies);
    var upToPoll := [CreateTextTo3d(ComposePrompt(info.obj, info.lowpolyPrompt))]
      + Polls("text-to-3d", PollUrl("text-to-3d", textTaskId), polled.polls);
    if !(polled.Succeeded? && GlbOf(polled.result).Some?) {
      assert upToPoll + [] == upToPoll;
    }
  }

  /** The text-to-3D task is created once: no request after the first creates it again. */
  lemma TextTo3dCreatedOnce(info: Info, textTaskId: string, textReplies: seq<Reply>, retextureId: string,
                            retextureReplies: seq<Reply>, listing: seq<string>, fetchOk: bool)
    ensures var r := RunPipeline(info, textTaskId, textReplies, retextureId, retextureReplies, listing, fetchOk);
      forall i :: 1 <= i < |r.calls| ==> !r.calls[i].CreateTextTo3d?
  {
    var polled := PollSpec(textReplies);
    var tail := if polled.Succeeded? && GlbOf(polled.result).Some?
      then AfterTextTo3d(info, GlbOf(polled.result).value, retextureId, retextureReplies, listing, fetchOk).calls
      else [];
    PipelineTrace(info, textTaskId, textReplies, retextureId, retextureReplies, listing, fetchOk);
    NoLaterTextTo3d(CreateTextTo3d(ComposePrompt(info.obj, info.lowpolyPrompt)),
                    PollUrl("text-to-3d", textTaskId), polled.polls, tail);
  }

  lemma NoLaterTextTo3d(create: Call, url: string, n: nat, tail: seq<Call>)
    requires StagesWithin(tail, 2, 4)
    ensures var c := [create] + Polls("text-to-3d", url, n) + tail;
      forall i :: 1 <= i < |c| ==> !c[i].CreateTextTo3d?
  {
    var c := [create] + Polls("text-to-3d", url, n) + tail;
    forall i | 1 <= i < |c|
      ensures !c[i].CreateTextTo3d?
    {
      if i <= n {
        assert c[i] == Polls("text-to-3d", url, n)[i - 1];
      } else {
        assert c[i] == tail[i - 1 - n];
      }
    }
  }

  /** Every request of `calls` satisfies `p`. */
  predicate AllCalls(calls: seq<Call>, p: Call -> bool) {
    forall i :: 0 <= i < |calls| ==> p(calls[i])
  }

  lemma AllCallsAppend(a: seq<Call>, b: seq<Call>, p: Call -> bool)
    requires AllCalls(a, p) && AllCalls(b, p)
    ensures AllCalls(a + b, p)
  {
    forall i | 0 <= i < |a + b|
      ensures p((a + b)[i])
    {
      if i < |a| {
        assert (a + b)[i] == a[i];
      } else {
        assert (a + b)[i] == b[i - |a|];
      }
    }
  }

  /** The retexture is requested only after a successful text-to-3D poll, on that result's
      GLB and with the same prompt. */
  lemma RetextureFollowsTextTo3d(info: Info, textTaskId: string, textReplies: seq<Reply>, retextureId: string,
                                 retextureReplies: seq<Reply>, listing: seq<string>, fetchOk: bool)
    ensures var r := RunPipeline(info, textTaskId, textReplies, retextureId, retextureReplies, listing, fetchOk);
      forall i :: 0 <= i < |r.calls| && r.calls[i].CreateRetexture? ==>
        && PollSpec(textReplies).Succeeded?
        && Some(r.calls[i].modelUrl) == GlbOf(PollSpec(textReplies).result)
        && r.calls[i].stylePrompt == ComposePrompt(info.obj, info.lowpolyPrompt)
  {
    var r := RunPipeline(info, textTaskId, textReplies, retextureId, retextureReplies, listing, fetchOk);
    var prompt := ComposePrompt(info.obj, info.lowpolyPrompt);
    var polled := PollSpec(textReplies);
    var ok := (c: Call) => c.CreateRetexture? ==>
      polled.Succeeded? && Some(c.modelUrl) == GlbOf(polled.result) && c.stylePrompt == prompt;
    var upToPoll := [CreateTextTo3d(prompt)] + Polls("text-to-3d", PollUrl("text-to-3d", textTaskId), polled.polls);
    assert AllCalls(upToPoll, ok);
    if polled.Succeeded? && GlbOf(polled.result).Some? {
      var rest := AfterTextTo3d(info, GlbOf(polled.result).value, retextureId, retextureReplies, listing, fetchOk);
      assert AllCalls(rest.calls, ok);
      AllCallsAppend(upToPoll, rest.calls, ok);
      assert r.calls == upToPoll + rest.calls;
    }
    assert AllCalls(r.calls, ok);
  }

  /** Every status request goes to the endpoint of its own task. */
  lemma PollsHitOwnEndpoint(info: Info, textTaskId: string, textReplies: seq<Reply>, retextureId: string,
                            retextureReplies: seq<Reply>, listing: seq<string>, fetchOk: bool)
    ensures var r := RunPipeline(info, textTaskId, textReplies, retextureId, retextureReplies, listing, fetchOk);
      forall i :: 0 <= i < |r.calls| && r.calls[i].PollStatus? ==>
        r.calls[i] == PollStatus("text-to-3d", PollUrl("text-to-3d", textTaskId)) ||
        r.calls[i] == PollStatus("retexture", PollUrl("retexture", retextureId))
  {
    var r := RunPipeline(info, textTaskId, textReplies, retextureId, retextureReplies, listing, fetchOk);
    var prompt := ComposePrompt(info.obj, info.lowpolyPrompt);
    var polled := PollSpec(textReplies);
    var ok := (c: Call) => c.PollStatus? ==>
      c == PollStatus("text-to-3d", PollUrl("text-to-3d", textTaskId)) ||
      c == PollStatus("retexture", PollUrl("retexture", retextureId));
    var upToPoll := [CreateTextTo3d(prompt)] + Polls("text-to-3d", PollUrl("text-to-3d", textTaskId), polled.polls);
    assert AllCalls(upToPoll, ok);
    if polled.Succeeded? && GlbOf(polled.result).Some? {
      var rest := AfterTextTo3d(info, GlbOf(polled.result).value, retextureId, retextureReplies, listing, fetchOk);
      assert AllCalls(rest.calls, ok);
      AllCallsAppend(upToPoll, rest.calls, ok);
      assert r.calls == upToPoll + rest.calls;
    }
    assert AllCalls(r.calls, ok);
  }

  /** How a run that does not finish ends: at the first poll that fails or stays undecided,
      at a text-to-3D result without a GLB, or at the download. */
  lemma PipelineFailures(info: Info, textTaskId: string, textReplies: seq<Reply>, retextureId: string,
                         retextureReplies: seq<Reply>, listing: seq<string>, fetchOk: bool)
    ensures var r := RunPipeline(info, textTaskId, textReplies, retextureId, retextureReplies, listing, fetchOk);
      var text := PollSpec(textReplies);
      var re := PollSpec(retextureReplies);
      && (!text.Succeeded? ==>
        r.outcome == (if text.Failed? then PollFailed("text-to-3d") else StillPolling("text-to-3d")))
      && (text.Succeeded? && GlbOf(text.result).None? ==> r.outcome == NoModelUrl("text-to-3d"))
      && (text.Succeeded? && GlbOf(text.result).Some? && !re.Succeeded? ==>
        r.outcome == (if re.Failed? then PollFailed("retexture") else StillPolling("retexture")))
      && (text.Succeeded? && GlbOf(text.result).Some? && re.Succeeded?
          && !DownloadGlb(re.result, info.obj, listing, "./outputs", "_retexture", fetchOk).Saved? ==>
        r.outcome == DownloadFailed)
  {
  }

  /** The run finishes exactly when both polls succeed, the first result names a GLB and
      the download succeeds; the retextured model is then saved under `./outputs` with the
      `_retexture` suffix. */
  lemma PipelineFinishes(info: Info, textTaskId: string, textReplies: seq<Reply>, retextureId: string,
                         retextureReplies: seq<Reply>, listing: seq<string>, fetchOk: bool)
    ensures var r := RunPipeline(info, textTaskId, textReplies, retextureId, retextureReplies, listing, fetchOk);
      && (r.outcome.Finished? <==>
        && PollSpec(textReplies).Succeeded? && GlbOf(PollSpec(textReplies).result).Some?
        && PollSpec(retextureReplies).Succeeded?
        && DownloadGlb(PollSpec(retextureReplies).result, info.obj, listing, "./outputs", "_retexture", fetchOk).Saved?)
      && (r.outcome.Finished? ==> r.outcome.path == SavePath(info.obj, listing, "./outputs", "_retexture"))
  {
  }
}
