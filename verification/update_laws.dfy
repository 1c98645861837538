// Updates, end to end: what a policy update asks for is what a due check fetches, what a check
// publishes is the package its manifest describes, and what an apply installs is the image
// that manifest promises.
module UpdateLaws {
  import opened Prelude
  import opened JsonModel
  import opened FirmwarePackage
  import opened FirmwareUpdate
  import opened RemoteUpdate
  import opened UpdatePolicy
  import opened UpdateScheduler

  // ---- Requesting a check -----------------------------------------------------

  /** A check request is accepted exactly when its URL is valid, no worker is at work, and the
      request gets its locks and its task. Then one worker is created, for that URL. */
  lemma CheckIsAcceptedIff(r: Remote, url: string, g: Grant) returns (r': Remote)
    requires OneWorker(r)
    ensures r' == AfterRequestCheck(r, url, g)
    ensures CheckAnswer(r, url, g) == Accepted
      <==> ValidManifestUrl(Trim(url)) && r.workers == [] && g.gate && g.launch && g.created
    ensures CheckAnswer(r, url, g) == Accepted ==>
      r' == Remote(RemoteIdle, Trim(url), "", true, [Worker(Check, Created, "")], r.updater)
    ensures CheckAnswer(r, url, g) != Accepted ==> r'.workers == r.workers && r'.updater == r.updater
    ensures !ValidManifestUrl(Trim(url)) || r.workers != [] || !g.gate ==> r' == r
  {
    r' := AfterRequestCheck(r, url, g);
  }

  /** A request that is not accepted is worth trying again soon exactly when its URL is valid
      and a worker or a lock was in its way. */
  lemma CheckIsBusyIff(r: Remote, url: string, g: Grant)
    requires OneWorker(r)
    ensures CheckAnswer(r, url, g) == Busy
      <==> ValidManifestUrl(Trim(url)) && (r.workers != [] || !g.gate || !g.launch)
  {
  }

  // ---- A check ----------------------------------------------------------------

  /** The package a check fetches is signed, its manifest describes m for this device, and
      its image fits. */
  ghost predicate Offers(u: Updater, t: Trust, e: Env, m: Metadata) {
    && (u.state == FirmwareUpdate.Idle || u.state == ValidImage || u.state == FirmwareUpdate.Failed)
    && e.fetched.Some? && 1 <= |e.fetched.value.manifest| <= 2048 && 1 <= |Trim(e.fetched.value.signature)| <= 192
    && Describes(t, e.fetched.value.manifest, e.fetched.value.signature, m)
    && e.p.partition.Some? && m.size <= e.p.partition.value
  }

  lemma PrepareTakesOffer(u: Updater, t: Trust, e: Env) returns (u': Updater)
    requires e.fetched.Some?
    ensures u' == AfterPrepare(u, t, e.fetched.value.manifest, e.fetched.value.signature, e.p)
    ensures u' == u.(package := u'.package)
    ensures (CanPrepare(u'.state) && u'.package.valid) <==> exists m :: Offers(u, t, e, m)
    ensures CanPrepare(u'.state) && u'.package.valid ==> Offers(u, t, e, u'.package)
  {
    var manifest, signature := e.fetched.value.manifest, e.fetched.value.signature;
    u' := AfterPrepare(u, t, manifest, signature, e.p);
    if exists m :: Offers(u, t, e, m) {
      var m :| Offers(u, t, e, m);
      InspectionIsExact(t, manifest, signature, m);
    } else if CanPrepare(u'.state) && u'.package.valid {
      InspectionIsExact(t, manifest, signature, u'.package);
      assert Offers(u, t, e, u'.package);
    }
  }

  /** A worker between its creation and the end of its check. */
  ghost predicate Checked(r: Remote, r': Remote) {
    && r'.workers == [] && !r'.handle && r'.manifestUrl == r.manifestUrl
    && r'.updater == r.updater.(package := r'.updater.package)
  }

  /** A check left alone publishes AVAILABLE if and only if what it fetches offers a package;
      then that package is prepared, and the base URL is the manifest's URL without its last
      segment. Otherwise it publishes FAILED and leaves the base URL alone. */
  lemma CheckPublishesIff(r: Remote, t: Trust, e: Env) returns (r': Remote)
    requires OneWorker(r) && r.workers == [Worker(Check, Created, "")] && ValidManifestUrl(r.manifestUrl)
    ensures r' == CheckAlone(r, t, e) && Checked(r, r')
    ensures r'.state == Available <==> r.manifestUrl != "https://manifest.json" && exists m :: Offers(r.updater, t, e, m)
    ensures r'.state == Available ==> Offers(r.updater, t, e, r'.updater.package) && r'.baseUrl + "manifest.json" == r.manifestUrl
    ensures r'.state != Available ==> r'.state == RemoteFailed && r'.baseUrl == r.baseUrl
  {
    r' := CheckAlone(r, t, e);
    BaseOfManifestUrl(r.manifestUrl);
    var started := AfterWorkerStep(r, t, 0, e);
    assert started == r.(state := Checking, workers := [Worker(Check, Fetching, r.manifestUrl)]);
    var updater, good := CheckFetches(started, t, e, r.manifestUrl);
    CheckEnds(started.(updater := updater, workers := [Worker(Check, if good then Ready else Failing, r.manifestUrl)]), t, e);
  }

  /** The second step of a check, which prepares what it fetches. */
  lemma CheckFetches(r: Remote, t: Trust, e: Env, url: string) returns (updater: Updater, good: bool)
    requires r.workers == [Worker(Check, Fetching, url)]
    ensures AfterWorkerStep(r, t, 0, e)
         == r.(updater := updater, workers := [Worker(Check, if good then Ready else Failing, url)])
    ensures updater == r.updater.(package := updater.package)
    ensures good <==> DeriveBaseUrl(url) != "" && exists m :: Offers(r.updater, t, e, m)
    ensures good ==> Offers(r.updater, t, e, updater.package)
  {
    updater, good := r.updater, false;
    if e.fetched.Some? && DeriveBaseUrl(url) != "" {
      updater := PrepareTakesOffer(r.updater, t, e);
      good := CanPrepare(updater.state) && updater.package.valid;
    }
  }

  /** The last one, which publishes. */
  lemma CheckEnds(r: Remote, t: Trust, e: Env)
    requires |r.workers| == 1 && r.workers[0].phase in {Ready, Failing}
    ensures var good := r.workers[0].phase == Ready;
      AfterWorkerStep(r, t, 0, e) ==
        r.(state := if good then Available else RemoteFailed, handle := false, workers := [],
           baseUrl := if good then DeriveBaseUrl(r.workers[0].url) else r.baseUrl)
  {
  }

  // ---- From a check to the boot image ------------------------------------------

  lemma ApplyIsAccepted(r: Remote, g: Grant)
    requires OneWorker(r)
    ensures (|AfterRequestApply(r, g).workers| == |r.workers| + 1)
      <==> r.state == Available && r.workers == [] && g.gate && g.launch && g.created
    ensures r.state == Available && r.workers == [] && g.gate && g.launch && g.created ==>
      AfterRequestApply(r, g) == r.(handle := true, workers := [Worker(Apply, Created, "")])
  {
  }

  /** An apply starts to load exactly when the response declares the size of the prepared
      package and its session opens; otherwise it publishes FAILED, whatever is streamed, and
      leaves the updater alone if the length was wrong. */
  lemma ApplyLoadsIff(r: Remote, t: Trust, e: Env, stream: seq<Env>) returns (begun: Remote, r': Remote)
    requires OneWorker(r) && r.workers == [Worker(Apply, Created, "")] && Streaming(r.updater)
    ensures begun == Opened(r, t, e) && r' == ApplyAlone(r, t, e, stream) && |begun.workers| == 1
    ensures begun.workers[0].phase.Loading?
      <==> e.declared == r.updater.package.size && e.declared > 0 && AfterBegin(r.updater, e.p).state == Receiving
    ensures begun.workers[0].phase.Loading? ==> begun.workers[0] == Worker(Apply, Loading(e.declared, 0), r.baseUrl)
    ensures !begun.workers[0].phase.Loading? ==>
      r'.workers == [] && r'.state == RemoteFailed && r'.updater.selected == r.updater.selected
    ensures e.declared != r.updater.package.size || e.declared == 0 ==> r'.updater == r.updater
  {
    begun, r' := Opened(r, t, e), ApplyAlone(r, t, e, stream);
    BeginOpensIff(r.updater, e.p);
    var started := AfterWorkerStep(r, t, 0, e);
    assert started.workers == [Worker(Apply, Connecting, r.baseUrl)];
    if !begun.workers[0].phase.Loading? {
      DownloadOver(begun, t, stream, 0);
      assert stream[..0] == [];
    }
  }

  /** The bytes of a stream are what its reads give, as long as no read exceeds the buffer
      and all of them together the image. */
  function Given(stream: seq<Env>): seq<Byte> {
    if stream == [] then []
    else Given(stream[..|stream| - 1]) + if stream[|stream| - 1].data.Some? then stream[|stream| - 1].data.value else []
  }

  lemma {:induction false} BytesAreGiven(expected: nat, stream: seq<Env>)
    requires |Given(stream)| <= expected
    requires forall i :: 0 <= i < |stream| ==> stream[i].data.Some? && |stream[i].data.value| <= 4096
    ensures Bytes(expected, stream) == Given(stream)
  {
    if stream != [] {
      BytesAreGiven(expected, stream[..|stream| - 1]);
      assert stream[|stream| - 1].data.Some?;
    }
  }

  /** A remote update from the request of a check to the boot image: with a check whose package
      is offered and a dependable download of the declared length, the image is selected for
      boot if and only if it is the one the manifest promises. */
  lemma CheckThenApplyInstallsIff(
    r: Remote, t: Trust, url: string, check: Env, m: Metadata, apply: Env, stream: seq<Env>)
    returns (r1: Remote, r2: Remote, r3: Remote, r4: Remote)
    requires OneWorker(r) && r.workers == [] && ValidManifestUrl(Trim(url)) && Trim(url) != "https://manifest.json"
    requires Streaming(r.updater) && Trusted(r.updater, t) && Offers(r.updater, t, check, m)
    requires apply.p.partition == check.p.partition && Reliable(apply.p, 0) && apply.declared == m.size
    requires Dependable(m.size, stream)
    ensures r1 == AfterRequestCheck(r, url, GRANTED)
    ensures r2 == CheckAlone(r1, t, check) && r2.state == Available && r2.baseUrl + "manifest.json" == Trim(url)
    ensures r3 == AfterRequestApply(r2, GRANTED)
    ensures r4 == ApplyAlone(r3, t, apply, stream) && r4.workers == [] && !r4.handle
    ensures if Promises(t, check.fetched.value.manifest, check.fetched.value.signature, Bytes(m.size, stream)) then
        && r4.state == RemoteIdle && r4.updater.state == PendingReboot
        && r4.updater.selected == r.updater.selected + [Selection(Bytes(m.size, stream), m)]
      else r4.state == RemoteFailed && r4.updater.selected == r.updater.selected
  {
    r1 := CheckIsAcceptedIff(r, url, GRANTED);
    r2 := CheckPublishesIff(r1, t, check);
    var manifest, signature := check.fetched.value.manifest, check.fetched.value.signature;
    DescribedOnce(t, manifest, signature, m, r2.updater.package);
    DescribedIsPromised(t, manifest, signature, m, Bytes(m.size, stream));
    ApplyIsAccepted(r2, GRANTED);
    r3 := AfterRequestApply(r2, GRANTED);
    r4 := ApplyAlone(r3, t, apply, stream);
    ApplyInstallsIff(r3, t, apply, stream);
  }

  // ---- Where workers fetch from --------------------------------------------------

  /** Where a worker fetches from, once it has started. */
  ghost predicate Fetches(r: Remote, w: Worker) {
    match w.kind
    case Check => ValidManifestUrl(r.manifestUrl) && (w.phase != Created ==> w.url == r.manifestUrl)
    case Apply => r.baseUrl + "manifest.json" == r.manifestUrl && (w.phase != Created ==> w.url == r.baseUrl)
  }

  /** A check fetches the manifest URL; AVAILABLE and applies go by the directory it is in. */
  ghost predicate Located(r: Remote) {
    && (r.workers != [] ==> Fetches(r, r.workers[0]))
    && (r.workers != [] && r.workers[0].phase == Ready ==> DeriveBaseUrl(r.manifestUrl) != "")
    && (r.state == Available ==> r.baseUrl + "manifest.json" == r.manifestUrl)
  }

  /** Between its start and its last step a worker changes the updater and its own phase. */
  lemma WorkerMoves(r: Remote, t: Trust, e: Env) returns (updater: Updater, phase: Phase)
    requires OneWorker(r) && r.workers != []
    requires !(r.workers[0].phase in {Created, Ready, Done, Failing})
    ensures AfterWorkerStep(r, t, 0, e) == r.(updater := updater, workers := [r.workers[0].(phase := phase)])
    ensures phase != Created && (phase == Ready ==> r.workers[0].phase == Fetching && DeriveBaseUrl(r.workers[0].url) != "")
  {
    var r' := AfterWorkerStep(r, t, 0, e);
    assert r.workers == [r.workers[0]];
    updater, phase := r'.updater, r'.workers[0].phase;
  }

  lemma WorkerStaysLocated(r: Remote, t: Trust, i: nat, e: Env) returns (r': Remote)
    requires OneWorker(r) && Located(r)
    ensures r' == AfterWorkerStep(r, t, i, e)
    ensures Located(r') && r'.manifestUrl == r.manifestUrl
  {
    r' := AfterWorkerStep(r, t, i, e);
    if i < |r.workers| {
      assert r.workers == [r.workers[0]];
      if r.workers[0].phase == Ready {
        BaseOfManifestUrl(r.manifestUrl);
      } else if !(r.workers[0].phase in {Created, Done, Failing}) {
        var updater, phase := WorkerMoves(r, t, e);
      }
    }
  }

  lemma StepStaysLocated(r: Remote, t: Trust, step: RemoteStep) returns (r': Remote)
    requires OneWorker(r) && Located(r)
    ensures r' == AfterRemoteStep(r, t, step)
    ensures Located(r')
    ensures r'.manifestUrl == r.manifestUrl || (step.Transport? && step.step.Boot? && r'.manifestUrl == "")
      || (step.RequestCheck? && r'.manifestUrl == Trim(step.url) && ValidManifestUrl(r'.manifestUrl))
  {
    r' := AfterRemoteStep(r, t, step);
    if step.WorkerStep? {
      r' := WorkerStaysLocated(r, t, step.i, step.e);
    }
  }

  /** Over every interleaving of requests, worker steps, the other transport and resets: a
      check fetches the manifest URL last accepted, and an image is downloaded from the
      directory that manifest is in. */
  lemma {:induction false} RunsStayLocated(r: Remote, t: Trust, steps: seq<RemoteStep>) returns (r': Remote)
    requires OneWorker(r) && Located(r)
    ensures r' == AfterRemoteRun(r, t, steps)
    ensures OneWorker(r') && Located(r')
  {
    r' := r;
    if steps != [] {
      var before := RunsStayLocated(r, t, steps[..|steps| - 1]);
      RemoteStepKeepsOne(before, t, steps[|steps| - 1]);
      r' := StepStaysLocated(before, t, steps[|steps| - 1]);
    }
  }

  // ---- The policy, member by member -------------------------------------------

  /** The word stands in the value, in either case, with nothing but space around it. */
  ghost predicate ReadsAt(value: string, word: string, i: nat, j: nat) {
    && i <= j <= |value| && Blank(value[..i]) && Blank(value[j..]) && j - i == |word|
    && forall k :: 0 <= k < |word| ==> SameLetter(value[i + k], word[k])
  }

  ghost predicate Reads(value: string, word: string) {
    exists i, j :: ReadsAt(value, word, i, j)
  }

  ghost predicate LowerSpaceless(word: string) {
    forall k :: 0 <= k < |word| ==> !IsSpace(word[k]) && !('A' <= word[k] <= 'Z')
  }

  lemma {:induction false} LowerAt(s: string, k: nat)
    requires k < |s|
    ensures |Lower(s)| == |s| && Lower(s)[k] == LowerChar(s[k])
  {
    if |s| > 1 {
      LowerAt(s[1..], if k == 0 then 0 else k - 1);
    }
  }

  lemma LowerLetter(c: char, d: char)
    requires !('A' <= d <= 'Z')
    ensures LowerChar(c) == d <==> SameLetter(c, d)
  {
  }

  lemma LowerIs(s: string, word: string)
    requires LowerSpaceless(word)
    ensures Lower(s) == word <==> |s| == |word| && forall k :: 0 <= k < |s| ==> SameLetter(s[k], word[k])
  {
    assert |Lower(s)| == |s| by {
      if s != "" {
        LowerAt(s, 0);
      }
    }
    if |s| == |word| {
      forall k: nat | k < |s|
        ensures Lower(s)[k] == word[k] <==> SameLetter(s[k], word[k])
      {
        LowerAt(s, k);
        LowerLetter(s[k], word[k]);
      }
    }
  }

  lemma ReadsIffTrimmed(value: string, word: string)
    requires word != "" && LowerSpaceless(word)
    ensures Reads(value, word) <==> Lower(Trim(value)) == word
  {
    if Lower(Trim(value)) == word {
      LowerIs(Trim(value), word);
      var i, j := TrimFinds(value);
      assert ReadsAt(value, word, i, j);
    }
    forall i: nat, j: nat | ReadsAt(value, word, i, j)
      ensures Lower(Trim(value)) == word
    {
      assert SameLetter(value[i + 0], word[0]) && SameLetter(value[i + (|word| - 1)], word[|word| - 1]);
      TrimStops(value, i, j);
      LowerIs(value[i..j], word);
    }
  }

  /** The field `enabled` of the form: exactly these words are accepted. */
  lemma EnabledIsExact(value: string)
    ensures ParseEnabled(value) == Some(true) <==> Reads(value, "1") || Reads(value, "true") || Reads(value, "on")
    ensures ParseEnabled(value) == Some(false) <==> Reads(value, "0") || Reads(value, "false") || Reads(value, "off")
  {
    ReadsIffTrimmed(value, "1");
    ReadsIffTrimmed(value, "true");
    ReadsIffTrimmed(value, "on");
    ReadsIffTrimmed(value, "0");
    ReadsIffTrimmed(value, "false");
    ReadsIffTrimmed(value, "off");
  }

  /** The stored document says this policy. */
  ghost predicate PolicySays(d: Json, p: Policy) {
    && d.Member("schema") == Integer(p.schema) && d.Member("revision") == Integer(p.revision)
    && d.Member("enabled") == Bool(p.enabled) && d.Member("manifest_url") == Text(p.manifestUrl)
    && d.Member("channel") == Text(p.channel) && d.Member("interval_seconds") == Integer(p.intervalSeconds)
    && d.Member("last_check_epoch") == Integer(p.lastCheckEpoch) && d.Member("last_result") == Text(p.lastResult)
  }

  /** A stored policy is loaded exactly when it has a legal length, says every field and is
      valid; what is persisted says the policy. */
  lemma LoadsWhatIsSaid(raw: Raw, p: Policy)
    ensures Deserialize(raw) == Some(p) <==>
      && 1 <= raw.length <= 1024 && raw.parsed.Some? && PolicySays(raw.parsed.value, p)
      && ValidPolicy(p) && InRange(p)
  {
  }

  lemma SerializedSays(p: Policy)
    ensures Serialize(p).Object? && PolicySays(Serialize(p), p)
  {
  }

  /** After a reset the policy is the stored one, or the defaults, marked as such if something
      else was stored. */
  lemma BeginLoads(s: PolicyStore, openOk: bool, p: Policy)
    ensures var s' := AfterBeginPolicy(s, openOk);
      && s'.ready == openOk && s'.flash == s.flash
      && (openOk && s.flash.length == 0 ==> s'.policy == Policy(1, 0, false, "", "dev", 21600, 0, "never"))
      && (openOk && Deserialize(s.flash) == Some(p) ==> s'.policy == p)
      && (openOk && s.flash.length != 0 && Deserialize(s.flash).None? ==>
            s'.policy == Policy(1, 0, false, "", "dev", 21600, 0, "policy_invalid_defaults"))
  {
  }

  lemma RecordChangesResult(s: PolicyStore, result: string, put: Put, sizeOf: Json -> nat)
    ensures var p, p' := s.policy, AfterRecord(s, result, put, sizeOf).policy;
      && (p' == p || p' == p.(lastResult := result))
      && (s.ready && ValidResult(result) && Persists(p.(lastResult := result), put, sizeOf) ==> p'.lastResult == result)
  {
  }

  // ---- A policy update ----------------------------------------------------------

  /** The policy a form asks for, written out. */
  function Asked(p: Policy, q: Request, enabled: bool): Policy {
    Policy(p.schema, (p.revision + 1) % 0x1_0000_0000, enabled, Trim(q.manifestUrl), "dev",
           q.interval % 0x1_0000_0000, p.lastCheckEpoch, "policy_updated")
  }

  /** A form the device accepts: words it knows, its own channel, an interval between a minute
      and a week, and a URL it can fetch, unless checks are off and there is none. */
  ghost predicate Sensible(q: Request, enabled: bool) {
    && (if enabled then Reads(q.enabled, "1") || Reads(q.enabled, "true") || Reads(q.enabled, "on")
        else Reads(q.enabled, "0") || Reads(q.enabled, "false") || Reads(q.enabled, "off"))
    && (q.channel.Some? ==> Trim(q.channel.value) == "dev")
    && 60 <= q.interval % 0x1_0000_0000 <= 604800
    && ValidUrl(Trim(q.manifestUrl)) && (Trim(q.manifestUrl) == "" ==> !enabled)
  }

  /** A form takes effect exactly when it is sensible, the store is ready, and what it asks for
      is persisted; then what it asks for is in force, and otherwise nothing changes. */
  lemma UpdateTakesForm(s: PolicyStore, q: Request, put: Put, enabled: bool, sizeOf: Json -> nat) returns (s': PolicyStore)
    requires s.policy.schema == 1
    ensures s' == AfterUpdate(s, q, put, sizeOf)
    ensures TakesEffect(s, q, put, sizeOf) && ParseEnabled(q.enabled) == Some(enabled)
      <==> s.ready && Sensible(q, enabled) && Persists(Asked(s.policy, q, enabled), put, sizeOf)
    ensures s.ready && Sensible(q, enabled) && Persists(Asked(s.policy, q, enabled), put, sizeOf) ==>
      s' == PolicyStore(Asked(s.policy, q, enabled), true, put.stored)
    ensures !TakesEffect(s, q, put, sizeOf) ==> s'.policy == s.policy && s'.ready == s.ready
  {
    s' := AfterUpdate(s, q, put, sizeOf);
    EnabledIsExact(q.enabled);
    AskedIsRequested(s, q, enabled);
  }

  lemma AskedIsRequested(s: PolicyStore, q: Request, enabled: bool)
    requires s.policy.schema == 1
    ensures (q.channel.Some? ==> Trim(q.channel.value) == "dev") ==> Requested(s.policy, q, enabled) == Asked(s.policy, q, enabled)
    ensures ValidPolicy(Requested(s.policy, q, enabled)) <==>
      && (q.channel.Some? ==> Trim(q.channel.value) == "dev") && 60 <= q.interval % 0x1_0000_0000 <= 604800
      && ValidUrl(Trim(q.manifestUrl)) && (Trim(q.manifestUrl) == "" ==> !enabled)
  {
    DefaultsAreValid();
  }

  // ---- A due check --------------------------------------------------------------

  /** A URL the policy accepts has no space to trim. */
  lemma PlainUrlTrims(url: string)
    requires ValidUrl(url) && url != ""
    ensures Trim(url) == url && ValidManifestUrl(Trim(url))
  {
    assert PlainUrlChar(url[0]) && PlainUrlChar(url[|url| - 1]);
    TrimStops(url, 0, |url|);
    assert url[0..|url|] == url;
  }

  ghost predicate CanCheck(x: Checker, locked: bool) {
    x.sched.timer.enabled && locked && x.policy.policy.enabled && x.sched.networkAvailable
  }

  /** A due check starts a worker exactly when the policy can be read and is enabled, there is a
      network, nobody is at work and the request is granted; the worker is for the policy's
      URL, and the next check is due an interval later. */
  lemma DueCheckRequests(x: Checker, t: Trust, locked: bool, g: Grant, now: nat, sizeOf: Json -> nat) returns (x': Checker)
    requires Coherent(x) && OneWorker(x.remote)
    ensures x' == AfterChecker(x, t, CheckDue(locked, g, now), sizeOf)
    ensures |x'.remote.workers| == |x.remote.workers| + 1
      <==> CanCheck(x, locked) && x.remote.workers == [] && g.gate && g.launch && g.created
    ensures CanCheck(x, locked) && x.remote.workers == [] && g.gate && g.launch && g.created ==>
      && x'.remote == Remote(RemoteIdle, x.policy.policy.manifestUrl, "", true, [Worker(Check, Created, "")], x.remote.updater)
      && ValidManifestUrl(x.policy.policy.manifestUrl)
      && x'.sched == x.sched.(
           timer := x.sched.timer.(intervalMs := x.policy.policy.intervalSeconds * 1000),
           lastAttempt := now, attempts := (x.sched.attempts + 1) % 0x1_0000_0000,
           lastAccepted := now, accepted := (x.sched.accepted + 1) % 0x1_0000_0000,
           nextDue := (now + x.policy.policy.intervalSeconds * 1000) % 0x1_0000_0000)
    ensures x'.policy == x.policy && x'.updates == x.updates
  {
    x' := AfterChecker(x, t, CheckDue(locked, g, now), sizeOf);
    if CanCheck(x, locked) {
      ValidIsReadable(x.policy);
      ValidIntervalsDoNotWrap(x.policy.policy);
      PlainUrlTrims(x.policy.policy.manifestUrl);
      var r' := CheckIsAcceptedIff(x.remote, x.policy.policy.manifestUrl, g);
    }
  }

  /** It tries again after 15 s exactly when there is no network, somebody is at work or a lock
      is missing. */
  lemma DueCheckRetries(x: Checker, t: Trust, g: Grant, now: nat, sizeOf: Json -> nat) returns (x': Checker)
    requires Coherent(x) && OneWorker(x.remote) && x.sched.timer.enabled && x.policy.policy.enabled
    ensures x' == AfterChecker(x, t, CheckDue(true, g, now), sizeOf)
    ensures x'.sched.timer.enabled && x'.sched.armed && x'.sched.timer.intervalMs == x.policy.policy.intervalSeconds * 1000
    ensures if !x.sched.networkAvailable || x.remote.workers != [] || !g.gate || !g.launch then
        && x'.sched.timer.delayMs == 15000 && x'.sched.nextDue == (now + 15000) % 0x1_0000_0000
        && x'.sched.accepted == x.sched.accepted
      else
        && x'.sched.timer.delayMs == x.sched.timer.delayMs
        && x'.sched.nextDue == (now + x.policy.policy.intervalSeconds * 1000) % 0x1_0000_0000
    ensures x'.sched.attempts == if x.sched.networkAvailable then (x.sched.attempts + 1) % 0x1_0000_0000 else x.sched.attempts
    ensures !x.sched.networkAvailable ==> x'.remote == x.remote
  {
    x' := AfterChecker(x, t, CheckDue(true, g, now), sizeOf);
    ValidIsReadable(x.policy);
    ValidIntervalsDoNotWrap(x.policy.policy);
    PlainUrlTrims(x.policy.policy.manifestUrl);
    CheckIsBusyIff(x.remote, x.policy.policy.manifestUrl, g);
  }

  /** A due check that cannot read the policy, or reads a disabled one, turns the timer off and
      requests nothing. */
  lemma DueCheckDisarms(x: Checker, t: Trust, locked: bool, g: Grant, now: nat, sizeOf: Json -> nat)
    requires x.sched.timer.enabled && (!locked || !x.policy.ready || !x.policy.policy.enabled)
    ensures var x' := AfterChecker(x, t, CheckDue(locked, g, now), sizeOf);
      && x'.sched == x.sched.(timer := x.sched.timer.(enabled := false), armed := false, nextDue := 0)
      && x'.remote == x.remote
  {
  }

  /** A due check and its worker, left alone: AVAILABLE is published if and only if what is
      fetched from the policy's URL offers a package. */
  lemma DueCheckPublishesIff(x: Checker, t: Trust, g: Grant, now: nat, e: Env, sizeOf: Json -> nat)
    returns (x': Checker, r: Remote)
    requires Coherent(x) && OneWorker(x.remote) && CanCheck(x, true)
    requires x.remote.workers == [] && g.gate && g.launch && g.created
    ensures x' == AfterChecker(x, t, CheckDue(true, g, now), sizeOf)
    ensures x'.remote.workers == [Worker(Check, Created, "")] && x'.remote.manifestUrl == x.policy.policy.manifestUrl
    ensures r == CheckAlone(x'.remote, t, e) && r.workers == [] && (r.state == Available || r.state == RemoteFailed)
    ensures r.state == Available
      <==> x.policy.policy.manifestUrl != "https://manifest.json" && exists m :: Offers(x.remote.updater, t, e, m)
    ensures r.state == Available ==> r.baseUrl + "manifest.json" == x.policy.policy.manifestUrl
  {
    x' := DueCheckRequests(x, t, true, g, now, sizeOf);
    r := CheckPublishesIff(x'.remote, t, e);
  }

  /** End to end: the form asks for checks of a URL every so many seconds. On a device whose
      flash keeps the policy, with a network and nobody at work, the next watch arms the timer
      for that interval, and a check that is due then and left alone publishes AVAILABLE if
      and only if what it fetches from that URL offers a package. */
  lemma FormIsChecked(
    x: Checker, t: Trust, q: Request, put: Put, watched: nat, g: Grant, due: nat, e: Env, sizeOf: Json -> nat)
    returns (x1: Checker, x2: Checker, x3: Checker, r: Remote)
    requires InStep(x) && x.updates + 1 < UINT32_LIMIT && OneWorker(x.remote) && x.remote.workers == []
    requires Sensible(q, true) && Persists(Asked(x.policy.policy, q, true), put, sizeOf)
    requires x.sched.networkAvailable && g.gate && g.launch && g.created
    ensures x1 == AfterChecker(x, t, UpdatePolicy(q, put), sizeOf)
    ensures x2 == AfterChecker(x1, t, Watch(true, watched), sizeOf)
    ensures ArmedFor(x2.sched, q.interval % 0x1_0000_0000, watched)
    ensures x3 == AfterChecker(x2, t, CheckDue(true, g, due), sizeOf)
    ensures x3.remote.workers == [Worker(Check, Created, "")] && x3.remote.manifestUrl == Trim(q.manifestUrl)
    ensures r == CheckAlone(x3.remote, t, e) && r.workers == []
    ensures r.state == Available
      <==> Trim(q.manifestUrl) != "https://manifest.json" && exists m :: Offers(x.remote.updater, t, e, m)
  {
    x1, x2 := FormArms(x, t, q, put, watched, sizeOf);
    x3, r := DueCheckPublishesIff(x2, t, g, due, e, sizeOf);
  }

  /** The timer waits for an interval of this many seconds from now. */
  ghost predicate ArmedFor(s: Sched, seconds: nat, now: nat) {
    s.armed && s.timer.enabled && s.timer.delayMs == seconds * 1000 && s.nextDue == (now + seconds * 1000) % 0x1_0000_0000
  }

  lemma FormArms(x: Checker, t: Trust, q: Request, put: Put, now: nat, sizeOf: Json -> nat)
    returns (x1: Checker, x2: Checker)
    requires InStep(x) && x.updates + 1 < UINT32_LIMIT
    requires Sensible(q, true) && Persists(Asked(x.policy.policy, q, true), put, sizeOf)
    ensures x1 == AfterChecker(x, t, UpdatePolicy(q, put), sizeOf)
    ensures x2 == AfterChecker(x1, t, Watch(true, now), sizeOf)
    ensures x2.remote == x.remote && x2.sched.networkAvailable == x.sched.networkAvailable
    ensures Coherent(x2) && x2.policy.policy.enabled && x2.policy.policy.manifestUrl == Trim(q.manifestUrl)
    ensures ArmedFor(x2.sched, q.interval % 0x1_0000_0000, now)
  {
    x1 := FormTakesEffect(x, t, q, put, sizeOf);
    x2 := WatchArms(x1, t, now, sizeOf);
  }

  lemma FormTakesEffect(x: Checker, t: Trust, q: Request, put: Put, sizeOf: Json -> nat) returns (x1: Checker)
    requires InStep(x) && Sensible(q, true) && Persists(Asked(x.policy.policy, q, true), put, sizeOf)
    ensures x1 == AfterChecker(x, t, UpdatePolicy(q, put), sizeOf)
    ensures x1.policy.policy == Asked(x.policy.policy, q, true)
    ensures x1.updates == x.updates + 1 && x1.remote == x.remote && x1.sched == x.sched && InStep(x1)
  {
    x1 := AfterChecker(x, t, UpdatePolicy(q, put), sizeOf);
    var s' := UpdateTakesForm(x.policy, q, put, true, sizeOf);
    UpdateKeepsInStep(x, t, q, put, sizeOf);
    assert (x.policy.policy.revision + 1) % 0x1_0000_0000 != x.policy.policy.revision;
  }

  lemma WatchArms(x: Checker, t: Trust, now: nat, sizeOf: Json -> nat) returns (x': Checker)
    requires InStep(x) && 0 < x.updates < UINT32_LIMIT && x.policy.policy.enabled
    ensures x' == AfterChecker(x, t, Watch(true, now), sizeOf)
    ensures x'.policy == x.policy && x'.remote == x.remote && x'.sched.networkAvailable == x.sched.networkAvailable
    ensures Coherent(x') && x'.sched.armed && x'.sched.timer.enabled
    ensures x'.sched.timer.delayMs == x.policy.policy.intervalSeconds * 1000
    ensures x'.sched.nextDue == (now + x.policy.policy.intervalSeconds * 1000) % 0x1_0000_0000
  {
    x' := AfterChecker(x, t, Watch(true, now), sizeOf);
    WatchAgrees(x, t, now, sizeOf);
  }
}
