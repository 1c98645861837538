// RemoteFirmwareUpdate: at most one worker task checks a manifest or downloads the image it
// describes; its handle is how requests know that one is at work. Requests are one step
// each, and so is every stretch of a worker between two shared accesses.
module RemoteUpdate {
  import opened Prelude
  import opened FirmwarePackage
  import opened FirmwareUpdate

  const MIN_URL_LENGTH := 16
  const MAX_URL_LENGTH := 384
  const SECURE_PREFIX := "https://"
  const MANIFEST_SUFFIX := "/manifest.json"
  const DOWNLOAD_CHUNK_BYTES := 4096

  // ---- URLs ------------------------------------------------------------------

  predicate EndsWith(s: string, suffix: string) {
    |s| >= |suffix| && s[|s| - |suffix|..] == suffix
  }

  predicate ValidManifestUrl(url: string) {
    MIN_URL_LENGTH <= |url| <= MAX_URL_LENGTH && EndsWith(url, MANIFEST_SUFFIX) && SECURE_PREFIX <= url
  }

  /** `lastIndexOf`; -1 when there is none. */
  function LastIndexOf(s: string, c: char): int {
    if s == "" then -1 else if s[|s| - 1] == c then |s| - 1 else LastIndexOf(s[..|s| - 1], c)
  }

  function DeriveBaseUrl(url: string): string {
    var slash := LastIndexOf(url, '/');
    if 7 < slash < |url| then url[..slash + 1] else ""
  }

  lemma {:induction false} LastIndexIs(s: string, c: char, k: nat)
    requires k < |s| && s[k] == c && forall i :: k < i < |s| ==> s[i] != c
    ensures LastIndexOf(s, c) == k
  {
    if k < |s| - 1 {
      LastIndexIs(s[..|s| - 1], c, k);
    }
  }

  /** The base of a valid manifest URL is that URL without its last segment, except for the
      one valid URL that has no host. */
  lemma BaseOfManifestUrl(url: string)
    requires ValidManifestUrl(url)
    ensures DeriveBaseUrl(url) == "" <==> url == "https://manifest.json"
    ensures DeriveBaseUrl(url) != "" ==> DeriveBaseUrl(url) + "manifest.json" == url
  {
    var k := |url| - |MANIFEST_SUFFIX|;
    assert forall i :: k <= i < |url| ==> url[i] == MANIFEST_SUFFIX[i - k];
    LastIndexIs(url, '/', k);
    assert url[k + 1..] == MANIFEST_SUFFIX[1..] == "manifest.json";
    assert url == url[..k + 1] + url[k + 1..];
    if k <= 7 {
      ShortManifestUrl(url, k);
    }
  }

  lemma ShortManifestUrl(url: string, k: nat)
    requires k <= 7 && ValidManifestUrl(url) && k == |url| - |MANIFEST_SUFFIX|
    ensures url == "https://manifest.json"
  {
    assert url[..8] == SECURE_PREFIX;
    assert url[k + 1] == 'm' && url[k] == '/';
    assert k == 7;
    assert url == url[..7] + url[7..] && url[..7] == SECURE_PREFIX[..7] == "https:/";
  }

  // ---- The protocol ----------------------------------------------------------

  datatype RemoteState = RemoteIdle | Checking | Available | Downloading | RemoteFailed

  datatype Kind = Check | Apply

  /** Where a worker stands: just created; a check fetching, or about to publish AVAILABLE;
      an apply waiting for the response, about to begin, loading, or about to publish IDLE;
      either about to publish FAILED. */
  datatype Phase =
    | Created | Fetching | Ready | Connecting | Opening(expected: nat) | Loading(expected: nat, total: nat) | Done | Failing

  /** url is the worker's own copy of the manifest URL or of the base URL. */
  datatype Worker = Worker(kind: Kind, phase: Phase, url: string)

  /** handle says that `workerTask` is not null; workers are the ones that have not yet
      published a result. */
  datatype Remote = Remote(
    state: RemoteState, manifestUrl: string, baseUrl: string, handle: bool, workers: seq<Worker>, updater: Updater)

  const NEW_REMOTE := Remote(RemoteIdle, "", "", false, [], NEW_UPDATER)

  datatype Package = Package(manifest: string, signature: string)

  /** What the network and the platform give a worker in one step. */
  datatype Env = Env(fetched: Option<Package>, declared: nat, data: Option<seq<Byte>>, p: Platform)

  /** What a request meets: whether its locks are granted, at the gate, at the launch and when
      it records a failure, and whether the task can be created. */
  datatype Grant = Grant(gate: bool, launch: bool, failing: bool, created: bool)

  const GRANTED := Grant(true, true, true, true)

  function FailRequest(r: Remote, g: Grant): Remote {
    if g.failing then r.(state := RemoteFailed, handle := false) else r
  }

  /** The first half of `requestCheck`, under the lock; None when it refuses. */
  function Gate(r: Remote, url: string, locked: bool): Option<Remote> {
    if !ValidManifestUrl(Trim(url)) || !locked then None
    else if r.handle || r.state == Checking || r.state == Downloading then None
    else Some(r.(manifestUrl := Trim(url), baseUrl := "", state := RemoteIdle))
  }

  predicate Launches(r: Remote, g: Grant) {
    g.launch && !r.handle && g.created
  }

  /** The second half: `startWorker`, and `setFailed` when it refuses. */
  function Launch(r: Remote, kind: Kind, g: Grant): Remote {
    if !Launches(r, g) then FailRequest(r, g)
    else r.(handle := true, workers := r.workers + [Worker(kind, Created, "")])
  }

  function AfterRequestCheck(r: Remote, url: string, g: Grant): Remote {
    var gated := Gate(r, url, g.gate);
    if gated.None? then r else Launch(gated.value, Check, g)
  }

  /** What `requestCheck` tells its caller: accepted, busy or without a lock, so that it is
      worth trying again soon, or refused for another reason. */
  datatype Answer = Accepted | Busy | Refusal

  function CheckAnswer(r: Remote, url: string, g: Grant): Answer {
    if !ValidManifestUrl(Trim(url)) then Refusal
    else if !g.gate || r.handle || r.state == Checking || r.state == Downloading then Busy
    else if !g.launch then Busy
    else if g.created then Accepted
    else Refusal
  }

  function AfterRequestApply(r: Remote, g: Grant): Remote {
    if !g.gate || r.state != Available || r.handle then r else Launch(r, Apply, g)
  }

  function AtPhase(r: Remote, i: nat, phase: Phase): Remote {
    if i < |r.workers| then r.(workers := r.workers[i := r.workers[i].(phase := phase)]) else r
  }

  /** A worker publishes its result and is gone. */
  function Publish(r: Remote, i: nat, state: RemoteState): Remote {
    if i < |r.workers| then r.(state := state, handle := false, workers := r.workers[..i] + r.workers[i + 1..]) else r
  }

  function Start(r: Remote, i: nat): Remote {
    if i >= |r.workers| then r
    else if r.workers[i].kind == Check then
      r.(state := Checking, workers := r.workers[i := Worker(Check, Fetching, r.manifestUrl)])
    else r.(state := Downloading, workers := r.workers[i := Worker(Apply, Connecting, r.baseUrl)])
  }

  function Prepared(r: Remote, t: Trust, i: nat, package: Package, p: Platform): Remote {
    var updater := AfterPrepare(r.updater, t, package.manifest, package.signature, p);
    AtPhase(r.(updater := updater), i, if CanPrepare(updater.state) && updater.package.valid then Ready else Failing)
  }

  /** A check fetches manifest and signature and prepares the package. */
  function Fetch(r: Remote, t: Trust, i: nat, e: Env): Remote {
    if i >= |r.workers| then r
    else if e.fetched.None? || DeriveBaseUrl(r.workers[i].url) == "" then AtPhase(r, i, Failing)
    else Prepared(r, t, i, e.fetched.value, e.p)
  }

  function PublishAvailable(r: Remote, i: nat): Remote {
    if i < |r.workers| then Publish(r.(baseUrl := DeriveBaseUrl(r.workers[i].url)), i, Available) else r
  }

  /** An apply compares the declared length with the prepared size. */
  function Connect(r: Remote, i: nat, e: Env): Remote {
    if e.declared == 0 || e.declared != r.updater.package.size then AtPhase(r, i, Failing)
    else AtPhase(r, i, Opening(r.updater.package.size))
  }

  function Open(r: Remote, i: nat, expected: nat, e: Env): Remote {
    var updater := AfterBegin(r.updater, e.p);
    AtPhase(r.(updater := updater), i, if updater.state == Receiving then Loading(expected, 0) else Failing)
  }

  /** At most one buffer and no more than what is missing. */
  function Wanted(data: seq<Byte>, missing: nat): seq<Byte> {
    var limit := if missing < DOWNLOAD_CHUNK_BYTES then missing else DOWNLOAD_CHUNK_BYTES;
    if |data| <= limit then data else data[..limit]
  }

  function Load(r: Remote, t: Trust, i: nat, expected: nat, total: nat, e: Env): Remote {
    if total >= expected then
      var updater := AfterFinish(r.updater, t, e.p);
      AtPhase(r.(updater := updater), i,
              if r.updater.state == Receiving && updater.state == PendingReboot then Done else Failing)
    else if e.data.None? then AtPhase(r, i, Failing)
    else if e.data.value == [] then r
    else
      var chunk := Wanted(e.data.value, expected - total);
      var updater := AfterWrite(r.updater, chunk, e.p);
      AtPhase(r.(updater := updater), i,
              if updater.state == Receiving then Loading(expected, total + |chunk|) else Failing)
  }

  function AfterWorkerStep(r: Remote, t: Trust, i: nat, e: Env): Remote {
    if i >= |r.workers| then r
    else
      match r.workers[i].phase
      case Created => Start(r, i)
      case Fetching => Fetch(r, t, i, e)
      case Ready => PublishAvailable(r, i)
      case Connecting => Connect(r, i, e)
      case Opening(expected) => Open(r, i, expected, e)
      case Loading(expected, total) => Load(r, t, i, expected, total, e)
      case Done => Publish(r, i, RemoteIdle)
      case Failing => Publish(r, i, RemoteFailed)
  }

  /** A step of the other transport or of the main loop on the shared updater; a reset also
      clears the remote service. */
  function AfterTransport(r: Remote, t: Trust, step: UpdateStep): Remote {
    var updater := AfterUpdateStep(r.updater, t, step);
    if step.Boot? then Remote(RemoteIdle, "", "", false, [], updater) else r.(updater := updater)
  }

  datatype RemoteStep =
    | RequestCheck(url: string, g: Grant)
    | RequestApply(g: Grant)
    | WorkerStep(i: nat, e: Env)
    | Transport(step: UpdateStep)

  function AfterRemoteStep(r: Remote, t: Trust, step: RemoteStep): Remote {
    match step
    case RequestCheck(url, g) => AfterRequestCheck(r, url, g)
    case RequestApply(g) => AfterRequestApply(r, g)
    case WorkerStep(i, e) => AfterWorkerStep(r, t, i, e)
    case Transport(updateStep) => AfterTransport(r, t, updateStep)
  }

  function AfterRemoteRun(r: Remote, t: Trust, steps: seq<RemoteStep>): Remote {
    if steps == [] then r else AfterRemoteStep(AfterRemoteRun(r, t, steps[..|steps| - 1]), t, steps[|steps| - 1])
  }

  // ---- One worker at a time --------------------------------------------------

  /** The state a worker has announced. */
  ghost predicate Announced(state: RemoteState, w: Worker) {
    match w.phase
    case Created => state != Checking && state != Downloading
    case Fetching => w.kind == Check && state == Checking
    case Ready => w.kind == Check && state == Checking
    case Connecting => w.kind == Apply && state == Downloading
    case Opening(_) => w.kind == Apply && state == Downloading
    case Loading(_, _) => w.kind == Apply && state == Downloading
    case Done => w.kind == Apply && state == Downloading
    case Failing => state == if w.kind == Check then Checking else Downloading
  }

  /** At most one worker is unpublished, the handle is set exactly when there is one, and
      CHECKING or DOWNLOADING is what that worker has announced. */
  ghost predicate OneWorker(r: Remote) {
    && |r.workers| <= 1 && (r.handle <==> |r.workers| == 1)
    && (r.workers == [] ==> r.state != Checking && r.state != Downloading)
    && (r.workers != [] ==> Announced(r.state, r.workers[0]))
  }

  lemma WorkerKeepsOne(r: Remote, t: Trust, i: nat, e: Env)
    requires OneWorker(r)
    ensures var r' := AfterWorkerStep(r, t, i, e);
      && OneWorker(r')
      && (r'.state == Downloading ==> r.state == Downloading || (r.workers != [] && r.workers[0].kind == Apply))
      && (forall w :: w in r'.workers ==> exists v :: v in r.workers && v.kind == w.kind)
  {
    if i < |r.workers| {
      var r' := AfterWorkerStep(r, t, i, e);
      assert r.workers == [r.workers[0]];
      assert r'.workers == [] || (|r'.workers| == 1 && r'.workers[0].kind == r.workers[0].kind);
    }
  }

  lemma RemoteStepKeepsOne(r: Remote, t: Trust, step: RemoteStep)
    requires OneWorker(r)
    ensures OneWorker(AfterRemoteStep(r, t, step))
  {
    if step.WorkerStep? {
      WorkerKeepsOne(r, t, step.i, step.e);
    }
  }

  /** Single-worker protocol, over every interleaving of requests, worker steps, the other
      transport and resets. */
  lemma {:induction false} RunsKeepOneWorker(r: Remote, t: Trust, steps: seq<RemoteStep>)
    requires OneWorker(r)
    ensures OneWorker(AfterRemoteRun(r, t, steps))
  {
    if steps != [] {
      RunsKeepOneWorker(r, t, steps[..|steps| - 1]);
      RemoteStepKeepsOne(AfterRemoteRun(r, t, steps[..|steps| - 1]), t, steps[|steps| - 1]);
    }
  }

  // ---- Requests in two halves ------------------------------------------------

  /** The lock is given up between the gate of a request and its launch; pending are the
      requests that have passed the gate and not yet been launched. */
  datatype Split = Split(remote: Remote, pending: seq<Kind>)

  datatype SplitStep =
    | GateCheck(url: string, locked: bool)
    | GateApply(locked: bool)
    | LaunchAt(i: nat, g: Grant)
    | Meanwhile(step: RemoteStep)

  function AfterSplit(x: Split, t: Trust, step: SplitStep): Split {
    match step
    case GateCheck(url, locked) =>
      if Gate(x.remote, url, locked).None? then x else Split(Gate(x.remote, url, locked).value, x.pending + [Check])
    case GateApply(locked) =>
      if !locked || x.remote.state != Available || x.remote.handle then x else x.(pending := x.pending + [Apply])
    case LaunchAt(i, g) =>
      if i >= |x.pending| then x
      else Split(Launch(x.remote, x.pending[i], g), x.pending[..i] + x.pending[i + 1..])
    case Meanwhile(remoteStep) => x.(remote := AfterRemoteStep(x.remote, t, remoteStep))
  }

  function AfterSplitRun(x: Split, t: Trust, steps: seq<SplitStep>): Split {
    if steps == [] then x else AfterSplit(AfterSplitRun(x, t, steps[..|steps| - 1]), t, steps[|steps| - 1])
  }

  /** A request that passes the gate and is launched with nothing in between is the atomic
      request. */
  lemma AtomicRequest(r: Remote, t: Trust, url: string, g: Grant)
    ensures AfterSplit(AfterSplit(Split(r, []), t, GateCheck(url, g.gate)), t, LaunchAt(0, g))
         == Split(AfterRequestCheck(r, url, g), [])
    ensures AfterSplit(AfterSplit(Split(r, []), t, GateApply(g.gate)), t, LaunchAt(0, g))
         == Split(AfterRequestApply(r, g), [])
  {
    assert [] + [Check] == [Check] && [] + [Apply] == [Apply];
    assert [Check][..0] + [Check][1..] == [] && [Apply][..0] + [Apply][1..] == [];
  }

  /** A launch finds the handle set, because another request got there first, and the failure
      is recorded. */
  ghost predicate Collides(x: Split, step: SplitStep) {
    step.LaunchAt? && step.i < |x.pending| && x.remote.handle && step.g.failing
  }

  /** A step breaks the protocol exactly when it is a launch that finds the handle set and
      records its failure, which clears a handle that is not its own. */
  lemma SplitStepKeepsIff(x: Split, t: Trust, step: SplitStep)
    requires OneWorker(x.remote)
    ensures OneWorker(AfterSplit(x, t, step).remote) <==> !Collides(x, step)
  {
    if step.Meanwhile? {
      RemoteStepKeepsOne(x.remote, t, step.step);
    }
  }

  ghost predicate KeptAt(x: Split, t: Trust, steps: seq<SplitStep>, i: nat)
    requires i <= |steps|
  {
    OneWorker(AfterSplitRun(x, t, steps[..i]).remote)
  }

  ghost predicate CollidesAt(x: Split, t: Trust, steps: seq<SplitStep>, i: nat)
    requires i < |steps|
  {
    Collides(AfterSplitRun(x, t, steps[..i]), steps[i])
  }

  ghost predicate KeptUpTo(x: Split, t: Trust, steps: seq<SplitStep>, n: nat)
    requires n <= |steps|
  {
    forall i :: 0 <= i <= n ==> KeptAt(x, t, steps, i)
  }

  ghost predicate NoneCollidesBefore(x: Split, t: Trust, steps: seq<SplitStep>, n: nat)
    requires n <= |steps|
  {
    forall i :: 0 <= i < n ==> !CollidesAt(x, t, steps, i)
  }

  lemma KeptUpToStep(x: Split, t: Trust, steps: seq<SplitStep>, n: nat)
    requires 0 < n <= |steps|
    ensures KeptUpTo(x, t, steps, n) <==> KeptUpTo(x, t, steps, n - 1) && KeptAt(x, t, steps, n)
    ensures NoneCollidesBefore(x, t, steps, n)
      <==> NoneCollidesBefore(x, t, steps, n - 1) && !CollidesAt(x, t, steps, n - 1)
    ensures KeptUpTo(x, t, steps, n - 1) ==> KeptAt(x, t, steps, n - 1)
  {
  }

  lemma NextIsKeptIff(x: Split, t: Trust, steps: seq<SplitStep>, i: nat)
    requires i < |steps| && KeptAt(x, t, steps, i)
    ensures KeptAt(x, t, steps, i + 1) <==> !CollidesAt(x, t, steps, i)
  {
    assert steps[..i + 1][..i] == steps[..i];
    SplitStepKeepsIff(AfterSplitRun(x, t, steps[..i]), t, steps[i]);
  }

  /** Over every interleaving of half requests, worker steps, the other transport and resets:
      the single-worker protocol holds throughout if and only if no launch that finds the
      handle set records its failure. */
  lemma {:induction false} SplitRunsKeepOneWorkerIff(x: Split, t: Trust, steps: seq<SplitStep>, n: nat)
    requires OneWorker(x.remote) && n <= |steps|
    ensures KeptUpTo(x, t, steps, n) <==> NoneCollidesBefore(x, t, steps, n)
  {
    if n == 0 {
      assert steps[..0] == [];
    } else {
      SplitRunsKeepOneWorkerIff(x, t, steps, n - 1);
      KeptUpToStep(x, t, steps, n);
      if KeptUpTo(x, t, steps, n - 1) {
        NextIsKeptIff(x, t, steps, n - 1);
      }
    }
  }

  /** It does happen: when two checks both pass the gate before either starts its
      worker, the one refused as busy clears the handle, although the other's worker is at
      work, and the next request starts a second worker beside it. */
  lemma ConcurrentChecksLoseTheHandle(r: Remote, url1: string, url2: string, url3: string)
    requires r.workers == [] && !r.handle && r.state == RemoteIdle
    requires ValidManifestUrl(Trim(url1)) && ValidManifestUrl(Trim(url2)) && ValidManifestUrl(Trim(url3))
    ensures Gate(r, url1, true).Some? && Gate(Gate(r, url1, true).value, url2, true).Some?
    ensures var gated := Gate(Gate(r, url1, true).value, url2, true).value;
      var both := Launch(Launch(gated, Check, GRANTED), Check, GRANTED);
      && both.workers == [Worker(Check, Created, "")] && !both.handle && !OneWorker(both)
      && |AfterRequestCheck(both, url3, GRANTED).workers| == 2
  {
    assert [Worker(Check, Created, "")] == r.workers + [Worker(Check, Created, "")];
  }

  // ---- Automatic checks never install ----------------------------------------

  /** Neither an apply request nor an install call of the web transport. */
  predicate ChecksOnly(step: RemoteStep) {
    match step
    case RequestApply(_) => false
    case Transport(updateStep) => updateStep.Prepare? || updateStep.Tick? || updateStep.Boot?
    case _ => true
  }

  ghost predicate NotInstalling(r: Remote) {
    && OneWorker(r) && r.state != Downloading && (forall w :: w in r.workers ==> w.kind == Check)
    && r.updater.state != Receiving
  }

  lemma ChecksStayQuiet(r: Remote, t: Trust, step: RemoteStep)
    requires NotInstalling(r) && ChecksOnly(step)
    ensures NotInstalling(AfterRemoteStep(r, t, step))
    ensures AfterRemoteStep(r, t, step).updater.selected == r.updater.selected
  {
    RemoteStepKeepsOne(r, t, step);
    if step.WorkerStep? {
      WorkerKeepsOne(r, t, step.i, step.e);
    }
  }

  /** A run without apply requests and web uploads never downloads, never opens an install
      session and never selects an image for boot, however many checks it makes. */
  lemma {:induction false} ChecksNeverInstall(r: Remote, t: Trust, steps: seq<RemoteStep>)
    requires NotInstalling(r) && forall i :: 0 <= i < |steps| ==> ChecksOnly(steps[i])
    ensures NotInstalling(AfterRemoteRun(r, t, steps))
    ensures AfterRemoteRun(r, t, steps).updater.selected == r.updater.selected
  {
    if steps != [] {
      ChecksNeverInstall(r, t, steps[..|steps| - 1]);
      ChecksStayQuiet(AfterRemoteRun(r, t, steps[..|steps| - 1]), t, steps[|steps| - 1]);
    }
  }

  // ---- Authenticity over both transports -------------------------------------

  /** The call a worker step makes on the shared updater, if any. */
  function CallOf(r: Remote, i: nat, e: Env): Option<UpdateStep> {
    if i >= |r.workers| then None
    else
      match r.workers[i].phase
      case Fetching =>
        if e.fetched.None? || DeriveBaseUrl(r.workers[i].url) == "" then None
        else Some(Prepare(e.fetched.value.manifest, e.fetched.value.signature, e.p))
      case Opening(_) => Some(Begin(e.p))
      case Loading(expected, total) =>
        if total >= expected then Some(Finish(e.p))
        else if e.data.None? || e.data.value == [] then None
        else Some(Write(Wanted(e.data.value, expected - total), e.p))
      case _ => None
  }

  /** A worker touches the updater only through the four operations. */
  lemma WorkerCalls(r: Remote, t: Trust, i: nat, e: Env)
    ensures AfterWorkerStep(r, t, i, e).updater
         == if CallOf(r, i, e).None? then r.updater else AfterUpdateStep(r.updater, t, CallOf(r, i, e).value)
  {
  }

  lemma RemoteStepKeepsUpdater(r: Remote, t: Trust, step: RemoteStep)
    requires Streaming(r.updater) && Trusted(r.updater, t)
    ensures var u := AfterRemoteStep(r, t, step).updater; Streaming(u) && Trusted(u, t) && SessionKept(r.updater, u)
  {
    match step
    case WorkerStep(i, e) =>
      WorkerCalls(r, t, i, e);
      if CallOf(r, i, e).Some? {
        UpdateStepKeeps(r.updater, t, CallOf(r, i, e).value);
      }
    case Transport(updateStep) => UpdateStepKeeps(r.updater, t, updateStep);
    case _ =>
  }

  /** Boot-image authenticity with both transports at work on the shared updater. */
  lemma {:induction false} BothTransportsSelectAuthenticImages(r: Remote, t: Trust, steps: seq<RemoteStep>)
    requires Streaming(r.updater) && Trusted(r.updater, t)
    ensures var u := AfterRemoteRun(r, t, steps).updater;
      Streaming(u) && Trusted(u, t) && forall i :: 0 <= i < |u.selected| ==> Authentic(t, u.selected[i])
  {
    if steps != [] {
      BothTransportsSelectAuthenticImages(r, t, steps[..|steps| - 1]);
      RemoteStepKeepsUpdater(AfterRemoteRun(r, t, steps[..|steps| - 1]), t, steps[|steps| - 1]);
    }
  }

  /** From power-on, over any run: one worker at most, only authentic images selected, and
      none at all unless somebody requests an apply or uploads an image. */
  lemma RunsFromPowerOn(t: Trust, steps: seq<RemoteStep>)
    ensures var r := AfterRemoteRun(NEW_REMOTE, t, steps);
      && OneWorker(r)
      && (forall i :: 0 <= i < |r.updater.selected| ==> Authentic(t, r.updater.selected[i]))
      && ((forall i :: 0 <= i < |steps| ==> ChecksOnly(steps[i])) ==> NotInstalling(r) && r.updater.selected == [])
  {
    RunsKeepOneWorker(NEW_REMOTE, t, steps);
    BothTransportsSelectAuthenticImages(NEW_REMOTE, t, steps);
    if forall i :: 0 <= i < |steps| ==> ChecksOnly(steps[i]) {
      ChecksNeverInstall(NEW_REMOTE, t, steps);
    }
  }

  // ---- A worker left alone ---------------------------------------------------

  /** One pass of the download loop: a read, while bytes are missing. */
  function AfterRead(r: Remote, t: Trust, e: Env): Remote {
    if r.workers != [] && r.workers[0].phase.Loading? && r.workers[0].phase.total < r.workers[0].phase.expected then
      AfterWorkerStep(r, t, 0, e)
    else r
  }

  function AfterDownload(r: Remote, t: Trust, stream: seq<Env>): Remote {
    if stream == [] then r
    else AfterRead(AfterDownload(r, t, stream[..|stream| - 1]), t, stream[|stream| - 1])
  }

  /** After the loop: an incomplete download fails, a complete one is finished. */
  function Concluded(r: Remote, t: Trust, e: Env): Remote {
    if r.workers == [] then r
    else if r.workers[0].phase.Loading? && r.workers[0].phase.total < r.workers[0].phase.expected then
      Publish(r, 0, RemoteFailed)
    else if r.workers[0].phase.Loading? then AfterWorkerStep(AfterWorkerStep(r, t, 0, e), t, 0, e)
    else AfterWorkerStep(r, t, 0, e)
  }

  /** `applyWorker` up to the download loop. */
  function Opened(r: Remote, t: Trust, e: Env): Remote {
    var connected := AfterWorkerStep(AfterWorkerStep(r, t, 0, e), t, 0, e);
    if connected.workers != [] && connected.workers[0].phase.Opening? then AfterWorkerStep(connected, t, 0, e)
    else connected
  }

  /** `applyWorker` from start to end. */
  function ApplyAlone(r: Remote, t: Trust, e: Env, stream: seq<Env>): Remote {
    Concluded(AfterDownload(Opened(r, t, e), t, stream), t, e)
  }

  /** `checkWorker` from start to end. */
  function CheckAlone(r: Remote, t: Trust, e: Env): Remote {
    AfterWorkerStep(AfterWorkerStep(AfterWorkerStep(r, t, 0, e), t, 0, e), t, 0, e)
  }

  /** The bytes the loop takes from a stream. */
  function Taking(before: nat, expected: nat, e: Env): seq<Byte> {
    if before < expected && e.data.Some? then Wanted(e.data.value, expected - before) else []
  }

  function Bytes(expected: nat, stream: seq<Env>): seq<Byte> {
    if stream == [] then []
    else
      var before := Bytes(expected, stream[..|stream| - 1]);
      before + Taking(|before|, expected, stream[|stream| - 1])
  }

  /** A stream that is not lost, on a platform on which nothing fails. */
  ghost predicate Dependable(expected: nat, stream: seq<Env>) {
    forall i :: 0 <= i < |stream| ==>
      stream[i].data.Some? && Reliable(stream[i].p, |Taking(|Bytes(expected, stream[..i])|, expected, stream[i])|)
  }

  ghost predicate AtByte(r: Remote, t: Trust, expected: nat, bytes: seq<Byte>) {
    && |r.workers| == 1 && r.workers[0].kind == Apply && r.workers[0].phase == Loading(expected, |bytes|)
    && r.handle && r.state == Downloading
    && Streaming(r.updater) && Trusted(r.updater, t) && r.updater.state == Receiving
    && r.updater.package.size == expected && r.updater.flash.written == bytes && |bytes| <= expected
  }

  lemma ReadAppends(r: Remote, t: Trust, expected: nat, bytes: seq<Byte>, e: Env)
    requires AtByte(r, t, expected, bytes) && e.data.Some?
    requires Reliable(e.p, |Taking(|bytes|, expected, e)|)
    ensures var r' := AfterRead(r, t, e);
      && AtByte(r', t, expected, bytes + Taking(|bytes|, expected, e))
      && r'.updater.package == r.updater.package && r'.updater.selected == r.updater.selected
  {
    if |bytes| < expected && e.data.value != [] {
      WriteKeeps(r.updater, t, Taking(|bytes|, expected, e), e.p);
      GenuineSize(t, r.updater.package);
    } else {
      assert bytes + Taking(|bytes|, expected, e) == bytes;
    }
  }

  lemma {:induction false} DownloadAppends(r: Remote, t: Trust, expected: nat, stream: seq<Env>)
    requires AtByte(r, t, expected, []) && Dependable(expected, stream)
    ensures var r' := AfterDownload(r, t, stream);
      && AtByte(r', t, expected, Bytes(expected, stream))
      && r'.updater.package == r.updater.package && r'.updater.selected == r.updater.selected
  {
    if stream != [] {
      var n := |stream| - 1;
      assert forall i :: 0 <= i < n ==> stream[..n][..i] == stream[..i];
      DownloadAppends(r, t, expected, stream[..n]);
      ReadAppends(AfterDownload(r, t, stream[..n]), t, expected, Bytes(expected, stream[..n]), stream[n]);
    }
  }

  /** An apply worker left alone, with a dependable stream: it selects the streamed bytes for
      boot and publishes IDLE if they have the size and digest of the prepared package, and
      publishes FAILED otherwise. */
  lemma ApplyInstallsIff(r: Remote, t: Trust, e: Env, stream: seq<Env>)
    requires OneWorker(r) && |r.workers| == 1 && r.workers[0].kind == Apply && r.workers[0].phase == Created
    requires Streaming(r.updater) && Trusted(r.updater, t) && r.updater.package.valid && r.updater.state != Receiving
    requires Fits(r.updater.package, e.p.partition) && Reliable(e.p, 0) && e.declared == r.updater.package.size
    requires Dependable(r.updater.package.size, stream)
    ensures var r', bytes := ApplyAlone(r, t, e, stream), Bytes(r.updater.package.size, stream);
      && r'.workers == [] && !r'.handle
      && if |bytes| == r.updater.package.size && t.digest(bytes) == r.updater.package.sha256 then
           && r'.state == RemoteIdle && r'.updater.state == PendingReboot
           && r'.updater.selected == r.updater.selected + [Selection(bytes, r.updater.package)]
         else r'.state == RemoteFailed && r'.updater.selected == r.updater.selected
  {
    GenuineSize(t, r.updater.package);
    BeginKeeps(r.updater, t, e.p);
    OpenedIs(r, t, e);
    DownloadAppends(Opened(r, t, e), t, r.updater.package.size, stream);
    ConcludedIs(AfterDownload(Opened(r, t, e), t, stream), t, r.updater.package.size, Bytes(r.updater.package.size, stream), e);
  }

  lemma OpenedIs(r: Remote, t: Trust, e: Env)
    requires OneWorker(r) && |r.workers| == 1 && r.workers[0].kind == Apply && r.workers[0].phase == Created
    requires Streaming(r.updater) && Trusted(r.updater, t) && r.updater.package.valid && r.updater.state != Receiving
    requires Fits(r.updater.package, e.p.partition) && Reliable(e.p, 0) && e.declared == r.updater.package.size > 0
    ensures var r' := Opened(r, t, e);
      && AtByte(r', t, r.updater.package.size, [])
      && r'.updater.package == r.updater.package && r'.updater.selected == r.updater.selected
  {
    BeginKeeps(r.updater, t, e.p);
    var started := AfterWorkerStep(r, t, 0, e);
    assert started.workers == [Worker(Apply, Connecting, r.baseUrl)];
    var connected := AfterWorkerStep(started, t, 0, e);
    assert connected.workers == [Worker(Apply, Opening(r.updater.package.size), r.baseUrl)];
  }

  lemma ConcludedIs(r: Remote, t: Trust, expected: nat, bytes: seq<Byte>, e: Env)
    requires AtByte(r, t, expected, bytes) && Reliable(e.p, 0)
    ensures var r' := Concluded(r, t, e);
      && r'.workers == [] && !r'.handle
      && if |bytes| == expected && t.digest(bytes) == r.updater.package.sha256 then
           && r'.state == RemoteIdle && r'.updater.state == PendingReboot
           && r'.updater.selected == r.updater.selected + [Selection(bytes, r.updater.package)]
         else r'.state == RemoteFailed && r'.updater.selected == r.updater.selected
  {
    FinishKeeps(r.updater, t, e.p);
  }

  // ---- A lost download -------------------------------------------------------

  /** The updater is still receiving, but no worker feeds it and none can be applied. */
  ghost predicate Stuck(r: Remote) {
    && OneWorker(r) && r.updater.state == Receiving
    && r.state != Available && r.state != Downloading
    && (forall w :: w in r.workers ==> w.kind == Check && w.phase != Ready)
  }

  /** Requests, worker steps, preparations and ticks: everything but an install call of the
      web transport or a restart. */
  predicate RemoteOnly(step: RemoteStep) {
    step.Transport? ==> step.step.Prepare? || step.step.Tick?
  }

  lemma StuckStep(r: Remote, t: Trust, step: RemoteStep)
    requires Stuck(r) && RemoteOnly(step)
    ensures Stuck(AfterRemoteStep(r, t, step))
  {
    RemoteStepKeepsOne(r, t, step);
    if step.WorkerStep? {
      WorkerKeepsOne(r, t, step.i, step.e);
    }
  }

  /** A loading worker gives up with the session still open if and only if it lost its stream
      with bytes missing; every other failure closes the session. */
  lemma SessionLeftOpenIff(r: Remote, t: Trust, e: Env)
    requires OneWorker(r) && |r.workers| == 1 && r.workers[0].phase.Loading? && r.updater.state == Receiving
    ensures var r', w := AfterWorkerStep(r, t, 0, e), r.workers[0];
      |r'.workers| == 1 &&
      ((r'.workers[0].phase == Failing && r'.updater.state == Receiving)
        <==> (w.phase.total < w.phase.expected && e.data.None?))
  {
  }

  /** A download that loses its stream publishes FAILED without ending the install session.
      From then on no check can prepare a package and no apply is accepted, through any
      number of requests, until the web transport calls an install operation or the device
      restarts. */
  lemma {:induction false} LostDownloadBlocksRemoteUpdates(r: Remote, t: Trust, e: Env, steps: seq<RemoteStep>)
    requires OneWorker(r) && |r.workers| == 1 && r.workers[0].phase.Loading? && r.updater.state == Receiving
    requires r.workers[0].phase.total < r.workers[0].phase.expected && e.data.None?
    requires forall i :: 0 <= i < |steps| ==> RemoteOnly(steps[i])
    ensures Stuck(AfterRemoteRun(AfterWorkerStep(AfterWorkerStep(r, t, 0, e), t, 0, e), t, steps))
  {
    if steps != [] {
      LostDownloadBlocksRemoteUpdates(r, t, e, steps[..|steps| - 1]);
      var lost := AfterWorkerStep(AfterWorkerStep(r, t, 0, e), t, 0, e);
      StuckStep(AfterRemoteRun(lost, t, steps[..|steps| - 1]), t, steps[|steps| - 1]);
    }
  }

  // ---- The class -------------------------------------------------------------

  class RemoteUpdater {
    const updater: FirmwareUpdater
    var state: RemoteState
    var manifestUrl: string
    var baseUrl: string
    var handle: bool
    ghost var workers: seq<Worker>

    ghost function Snapshot(): Remote
      reads this, updater, updater.verifier
    {
      Remote(state, manifestUrl, baseUrl, handle, workers, updater.Snapshot())
    }

    constructor (updater: FirmwareUpdater)
      ensures this.updater == updater && Snapshot() == NEW_REMOTE.(updater := updater.Snapshot())
    {
      this.updater, state, manifestUrl, baseUrl, handle, workers := updater, RemoteIdle, "", "", false, [];
    }

    method CheckUrl(url: string) returns (ok: bool)
      ensures ok == ValidManifestUrl(url)
    {
      if |url| < MIN_URL_LENGTH || |url| > MAX_URL_LENGTH || !EndsWith(url, MANIFEST_SUFFIX) {
        return false;
      }
      return SECURE_PREFIX <= url;
    }

    /** `setFailed`, called by a request. */
    method SetFailed(g: Grant)
      modifies this`state, this`handle
      ensures Snapshot() == FailRequest(old(Snapshot()), g)
    {
      if g.failing {
        state, handle := RemoteFailed, false;
      }
    }

    method StartWorker(kind: Kind, g: Grant) returns (ok: bool)
      modifies this`handle, this`workers
      ensures ok <==> Launches(old(Snapshot()), g)
      ensures Snapshot() == if ok then Launch(old(Snapshot()), kind, g) else old(Snapshot())
    {
      if !g.launch || handle || !g.created {
        return false;
      }
      handle := true;
      workers := workers + [Worker(kind, Created, "")];
      return true;
    }

    method RequestCheck(url: string, g: Grant) returns (answer: Answer)
      modifies this
      ensures Snapshot() == AfterRequestCheck(old(Snapshot()), url, g)
      ensures answer == CheckAnswer(old(Snapshot()), url, g)
    {
      var trimmed := Trim(url);
      var urlOk := CheckUrl(trimmed);
      if !urlOk {
        return Refusal;
      }
      if !g.gate || handle || state == Checking || state == Downloading {
        return Busy;
      }
      manifestUrl, baseUrl, state := trimmed, "", RemoteIdle;
      var ok := StartWorker(Check, g);
      if !ok {
        SetFailed(g);
        return if g.launch then Refusal else Busy;
      }
      return Accepted;
    }

    method RequestApply(g: Grant) returns (ok: bool)
      modifies this
      ensures Snapshot() == AfterRequestApply(old(Snapshot()), g)
      ensures ok <==> |workers| == |old(workers)| + 1
    {
      if !g.gate || state != Available || handle {
        return false;
      }
      ok := StartWorker(Apply, g);
      if !ok {
        SetFailed(g);
      }
    }

    /** `finishWorker` and a worker's `setFailed`. */
    method FinishWorker(result: RemoteState)
      requires |workers| == 1
      modifies this`state, this`handle, this`workers
      ensures Snapshot() == Publish(old(Snapshot()), 0, result)
    {
      state, handle, workers := result, false, [];
    }

    /** `checkWorker`, run while nobody else does. */
    method RunCheck(e: Env)
      requires |workers| == 1 && workers[0] == Worker(Check, Created, "")
      modifies this, updater.verifier
      ensures Snapshot() == CheckAlone(old(Snapshot()), updater.verifier.trust, e)
    {
      state := Checking;
      var local := manifestUrl;
      workers := [Worker(Check, Fetching, local)];
      assert Snapshot() == Start(old(Snapshot()), 0);
      var base := DeriveBaseUrl(local);
      if e.fetched.None? || |base| == 0 {
        FinishWorker(RemoteFailed);
        return;
      }
      var error := updater.PreparePackage(e.fetched.value.manifest, e.fetched.value.signature, e.p);
      if error.Some? {
        workers := [Worker(Check, Failing, local)];
        FinishWorker(RemoteFailed);
        return;
      }
      workers := [Worker(Check, Ready, local)];
      baseUrl := base;
      FinishWorker(Available);
    }

    /** The first part of `applyWorker`, up to the download loop. */
    method OpenDownload(e: Env) returns (expected: Option<nat>)
      requires |workers| == 1 && workers[0] == Worker(Apply, Created, "")
      modifies this, updater
      ensures Snapshot() == Opened(old(Snapshot()), updater.verifier.trust, e)
      ensures |workers| == 1
      ensures workers[0].phase == if expected.Some? then Loading(expected.value, 0) else Failing
    {
      state := Downloading;
      var local := baseUrl;
      workers := [Worker(Apply, Connecting, local)];
      assert Snapshot() == Start(old(Snapshot()), 0);
      var size := updater.verifier.metadata.size;
      if e.declared == 0 || e.declared != size {
        workers := [Worker(Apply, Failing, local)];
        return None;
      }
      workers := [Worker(Apply, Opening(size), local)];
      var error := updater.BeginPreparedInstall(e.p);
      if error.Some? {
        workers := [Worker(Apply, Failing, local)];
        return None;
      }
      workers := [Worker(Apply, Loading(size, 0), local)];
      return Some(size);
    }

    /** One pass of the loop; false when it breaks. */
    method ReadChunk(e: Env, expected: nat, total: nat) returns (more: bool, read: nat)
      requires |workers| == 1 && workers[0].phase == Loading(expected, total) && total < expected
      modifies this, updater
      ensures Snapshot() == AfterRead(old(Snapshot()), updater.verifier.trust, e)
      ensures |workers| == 1 && read <= expected - total
      ensures workers[0].phase == if more then Loading(expected, total + read) else Failing
    {
      if e.data.None? {
        workers := [workers[0].(phase := Failing)];
        return false, 0;
      }
      if |e.data.value| == 0 {
        return true, 0;
      }
      var chunk := Wanted(e.data.value, expected - total);
      var error := updater.WritePreparedChunk(chunk, e.p);
      if error.Some? {
        workers := [workers[0].(phase := Failing)];
        return false, 0;
      }
      workers := [workers[0].(phase := Loading(expected, total + |chunk|))];
      return true, |chunk|;
    }

    /** The download loop of `applyWorker`. */
    method Download(stream: seq<Env>, expected: nat) returns (more: bool, total: nat)
      requires |workers| == 1 && workers[0].phase == Loading(expected, 0)
      modifies this, updater
      ensures Snapshot() == AfterDownload(old(Snapshot()), updater.verifier.trust, stream)
      ensures |workers| == 1 && total <= expected
      ensures workers[0].phase == if more then Loading(expected, total) else Failing
    {
      more, total := true, 0;
      var k := 0;
      while total < expected && more && k < |stream|
        invariant k <= |stream| && total <= expected
        invariant |workers| == 1 && workers[0].phase == if more then Loading(expected, total) else Failing
        invariant Snapshot() == AfterDownload(old(Snapshot()), updater.verifier.trust, stream[..k])
        decreases |stream| - k
      {
        assert stream[..k + 1][..k] == stream[..k];
        var read;
        more, read := ReadChunk(stream[k], expected, total);
        total := total + read;
        k := k + 1;
      }
      if k < |stream| {
        DownloadOver(old(Snapshot()), updater.verifier.trust, stream, k);
      } else {
        assert stream[..k] == stream;
      }
    }

    /** `applyWorker`, run while nobody else does. */
    method RunApply(e: Env, stream: seq<Env>)
      requires |workers| == 1 && workers[0] == Worker(Apply, Created, "")
      modifies this, updater
      ensures Snapshot() == ApplyAlone(old(Snapshot()), updater.verifier.trust, e, stream)
    {
      ghost var t := updater.verifier.trust;
      var expected := OpenDownload(e);
      if expected.None? {
        DownloadOver(Snapshot(), t, stream, 0);
        FinishWorker(RemoteFailed);
        return;
      }
      var more, total := Download(stream, expected.value);
      Conclude(e, more, total, expected.value);
    }

    /** What follows the loop. */
    method Conclude(e: Env, more: bool, total: nat, expected: nat)
      requires |workers| == 1 && workers[0].phase == (if more then Loading(expected, total) else Failing)
      requires total <= expected
      modifies this, updater
      ensures Snapshot() == Concluded(old(Snapshot()), updater.verifier.trust, e)
    {
      if !more || total != expected {
        FinishWorker(RemoteFailed);
        return;
      }
      var error := updater.FinishPreparedInstall(e.p);
      workers := [workers[0].(phase := if error.None? then Done else Failing)];
      assert Snapshot() == AfterWorkerStep(old(Snapshot()), updater.verifier.trust, 0, e);
      FinishWorker(if error.Some? then RemoteFailed else RemoteIdle);
    }
  }

  predicate LoopOver(r: Remote) {
    r.workers == [] || !r.workers[0].phase.Loading? || r.workers[0].phase.total >= r.workers[0].phase.expected
  }

  lemma {:induction false} DownloadOver(r: Remote, t: Trust, stream: seq<Env>, k: nat)
    requires k <= |stream| && LoopOver(AfterDownload(r, t, stream[..k]))
    ensures AfterDownload(r, t, stream) == AfterDownload(r, t, stream[..k])
    decreases |stream|
  {
    if k == |stream| {
      assert stream[..k] == stream;
    } else {
      assert stream[..|stream| - 1][..k] == stream[..k];
      DownloadOver(r, t, stream[..|stream| - 1], k);
    }
  }
}
