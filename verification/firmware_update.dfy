// FirmwareUpdate: a prepared package is streamed into flash and selected for boot when size
// and digest match; after a boot into a new image, a window in which it is kept or given up.
// The two transports, web upload and remote worker, call the same four operations.
module FirmwareUpdate {
  import opened Prelude
  import opened FirmwarePackage

  const REBOOT_DELAY_MS := 750
  const VALIDATION_MIN_MS := 10000
  const VALIDATION_TIMEOUT_MS := 30000
  const MIN_HEAP := 60000

  datatype UpdateState =
    | Idle | Receiving | Finalizing | PendingReboot | PendingVerify | ValidImage | Failed | RolledBack

  datatype UpdateError =
    | UpdateBusy | PackageRefused(error: PackageError) | FirmwareTooLarge | NotPrepared | HashBeginFailed
    | UpdateBeginFailed | NotReceiving | SizeExceeded | HashUpdateFailed | WriteFailed | SizeMismatch
    | HashFinishFailed | DigestMismatch | UpdateEndFailed

  /** The session of the Update library: the room it was opened with and what it has
      written. It refuses a second begin while open and a write larger than what is left. */
  datatype Flash = Closed | Open(size: nat, written: seq<Byte>)

  /** An image selected for boot, with the package it was installed for. */
  datatype Selection = Selection(image: seq<Byte>, package: Metadata)

  /** hash holds the bytes absorbed by an active hash context; selected and reboots are the
      history of images selected and restarts requested. */
  datatype Updater = Updater(
    state: UpdateState, since: nat, received: nat, sessionOpen: bool, hash: Option<seq<Byte>>,
    package: Metadata, flash: Flash, selected: seq<Selection>, reboots: nat)

  /** What the platform does during a call: the size of the next update partition, whether
      hashing and the library calls succeed, how much of a chunk is written, and millis(). */
  datatype Platform = Platform(
    partition: Option<nat>, hashOk: bool, openOk: bool, written: nat, endOk: bool, now: nat)

  function Fail(u: Updater, now: nat): Updater {
    u.(flash := if u.sessionOpen then Closed else u.flash, sessionOpen := false, hash := None,
       state := Failed, since := now)
  }

  predicate CanPrepare(state: UpdateState) {
    state == Idle || state == ValidImage || state == Failed
  }

  predicate Fits(m: Metadata, partition: Option<nat>) {
    partition.Some? && m.size <= partition.value
  }

  /** `preparePackage` */
  function AfterPrepare(u: Updater, t: Trust, manifest: string, signature: string, p: Platform): Updater {
    if !CanPrepare(u.state) then u
    else
      match Inspect(t, manifest, signature)
      case Refused(_) => u.(package := NO_METADATA)
      case Described(m) => u.(package := if Fits(m, p.partition) then m else NO_METADATA)
  }

  /** `beginPreparedInstall` */
  function AfterBegin(u: Updater, p: Platform): Updater {
    var u0 := u.(received := 0);
    if !u.package.valid || !Fits(u.package, p.partition) then Fail(u0, p.now)
    else if !p.hashOk then Fail(u0.(hash := None), p.now)
    else
      var u1 := u0.(hash := Some([]), state := Receiving, since := p.now);
      if u.flash.Open? || !p.openOk then Fail(u1, p.now)
      else u1.(flash := Open(u.package.size, []), sessionOpen := true)
  }

  /** `Update.write`: how many bytes of a chunk are taken. */
  function Taken(f: Flash, data: seq<Byte>, p: Platform): nat {
    if f.Closed? || |f.written| + |data| > f.size then 0 else p.written
  }

  /** `writePreparedChunk`; the size check wraps at 32 bits. */
  function AfterWrite(u: Updater, data: seq<Byte>, p: Platform): Updater {
    if u.state != Receiving then u
    else if (u.received + |data|) % UINT32_LIMIT > u.package.size then Fail(u, p.now)
    else if data == [] then u
    else if u.hash.None? || !p.hashOk then Fail(u, p.now)
    else
      var u1 := u.(hash := Some(u.hash.value + data));
      if Taken(u.flash, data, p) != |data| then Fail(u1, p.now)
      else u1.(flash := Stored(u.flash, data), received := (u.received + |data|) % UINT32_LIMIT)
  }

  function Stored(f: Flash, data: seq<Byte>): Flash {
    if f.Open? then f.(written := f.written + data) else f
  }

  /** `finishPreparedInstall` */
  function AfterFinish(u: Updater, t: Trust, p: Platform): Updater {
    if u.state != Receiving then u
    else if u.received != u.package.size then Fail(u, p.now)
    else if u.hash.None? || !p.hashOk then Fail(u, p.now)
    else if t.digest(u.hash.value) != u.package.sha256 then Fail(u, p.now)
    else if u.flash.Closed? || !p.endOk then Fail(u, p.now)
    else u.(hash := None, flash := Closed, sessionOpen := false, state := PendingReboot, since := p.now,
            selected := u.selected + [Selection(u.flash.written, u.package)])
  }

  /** One call of the web upload handler. */
  function AfterUpload(u: Updater, t: Trust, first: bool, data: seq<Byte>, final: bool, p: Platform): Updater {
    var begun := if first then AfterBegin(u, p) else u;
    var written := if data == [] then begun else AfterWrite(begun, data, p);
    if final then AfterFinish(written, t, p) else written
  }

  /** The reset; whether the running image is pending verification is up to the bootloader. */
  function AfterBoot(u: Updater, pendingVerify: bool, now: nat): Updater {
    u.(package := NO_METADATA, hash := None, sessionOpen := false, flash := Closed, received := 0,
       state := if pendingVerify then PendingVerify else Idle, since := now)
  }

  datatype Health = Health(storageReady: bool, heap: nat, markOk: bool)

  predicate Healthy(h: Health) {
    h.storageReady && h.heap >= MIN_HEAP
  }

  function Elapsed(now: nat, since: nat): nat {
    (now - since) % UINT32_LIMIT
  }

  function AfterTick(u: Updater, h: Health, now: nat): Updater {
    if u.state == PendingReboot && Elapsed(now, u.since) >= REBOOT_DELAY_MS then u.(reboots := u.reboots + 1)
    else if u.state != PendingVerify then u
    else if Healthy(h) && Elapsed(now, u.since) >= VALIDATION_MIN_MS then
      if h.markOk then u.(state := ValidImage, since := now) else Fail(u, now)
    else if !Healthy(h) && Elapsed(now, u.since) >= VALIDATION_TIMEOUT_MS then u.(state := RolledBack, since := now)
    else u
  }

  // ---- Authenticity over all interleavings -----------------------------------

  datatype UpdateStep =
    | Prepare(manifest: string, signature: string, p: Platform)
    | Begin(p: Platform)
    | Write(data: seq<Byte>, p: Platform)
    | Finish(p: Platform)
    | Upload(first: bool, data: seq<Byte>, final: bool, p: Platform)
    | Tick(h: Health, now: nat)
    | Boot(pendingVerify: bool, now: nat)

  function AfterUpdateStep(u: Updater, t: Trust, step: UpdateStep): Updater {
    match step
    case Prepare(manifest, signature, p) => AfterPrepare(u, t, manifest, signature, p)
    case Begin(p) => AfterBegin(u, p)
    case Write(data, p) => AfterWrite(u, data, p)
    case Finish(p) => AfterFinish(u, t, p)
    case Upload(first, data, final, p) => AfterUpload(u, t, first, data, final, p)
    case Tick(h, now) => AfterTick(u, h, now)
    case Boot(pendingVerify, now) => AfterBoot(u, pendingVerify, now)
  }

  function AfterUpdateRun(u: Updater, t: Trust, steps: seq<UpdateStep>): Updater {
    if steps == [] then u else AfterUpdateStep(AfterUpdateRun(u, t, steps[..|steps| - 1]), t, steps[|steps| - 1])
  }

  const NEW_UPDATER := Updater(Idle, 0, 0, false, None, NO_METADATA, Closed, [], 0)

  /** The package is one some signed manifest describes. */
  ghost predicate Genuine(t: Trust, m: Metadata) {
    exists manifest, signature :: Describes(t, manifest, signature, m)
  }

  /** Some signed manifest for this device, newer than what runs, promises exactly this image;
      the package kept with it is one such a manifest describes. */
  ghost predicate Authentic(t: Trust, s: Selection) {
    Genuine(t, s.package) && exists manifest, signature :: Promises(t, manifest, signature, s.image)
  }

  lemma MatchingIsAuthentic(t: Trust, s: Selection)
    requires Genuine(t, s.package) && |s.image| == s.package.size && t.digest(s.image) == s.package.sha256
    ensures Authentic(t, s)
  {
    var manifest, signature :| Describes(t, manifest, signature, s.package);
    DescribedIsPromised(t, manifest, signature, s.package, s.image);
  }

  /** RECEIVING exactly while a session is open, and then hash, flash and byte count agree on
      what has been streamed. */
  ghost predicate Streaming(u: Updater) {
    && u.state != Finalizing
    && (u.state == Receiving <==> u.flash.Open?) && (u.sessionOpen <==> u.flash.Open?)
    && (u.hash.Some? <==> u.flash.Open?)
    && (u.flash.Open? ==>
          && u.package.valid && u.flash.size == u.package.size
          && u.hash.value == u.flash.written && u.received == |u.flash.written| <= u.package.size)
  }

  ghost predicate Trusted(u: Updater, t: Trust) {
    && (u.package.valid ==> Genuine(t, u.package))
    && (forall i :: 0 <= i < |u.selected| ==> Authentic(t, u.selected[i]))
  }

  /** A session keeps the package it was opened for. */
  ghost predicate SessionKept(u: Updater, u': Updater) {
    u.flash.Open? && u'.flash.Open? ==> u'.package == u.package && u.flash.written <= u'.flash.written
  }

  lemma GenuineSize(t: Trust, m: Metadata)
    requires Genuine(t, m)
    ensures 0 < m.size < UINT32_LIMIT && m.valid
  {
  }

  lemma PrepareKeeps(u: Updater, t: Trust, manifest: string, signature: string, p: Platform)
    requires Streaming(u) && Trusted(u, t)
    ensures var u' := AfterPrepare(u, t, manifest, signature, p);
      Streaming(u') && Trusted(u', t) && SessionKept(u, u') && (u.state == Receiving ==> u' == u)
  {
    var inspection := Inspect(t, manifest, signature);
    if inspection.Described? {
      InspectionIsExact(t, manifest, signature, inspection.metadata);
    }
  }

  lemma BeginKeeps(u: Updater, t: Trust, p: Platform)
    requires Streaming(u) && Trusted(u, t)
    ensures var u' := AfterBegin(u, p);
      && Streaming(u') && Trusted(u', t) && SessionKept(u, u')
      && (u.state == Receiving ==> u'.state == Failed && u'.flash == Closed)
  {
  }

  lemma WriteKeeps(u: Updater, t: Trust, data: seq<Byte>, p: Platform)
    requires Streaming(u) && Trusted(u, t)
    ensures var u' := AfterWrite(u, data, p);
      && Streaming(u') && Trusted(u', t) && SessionKept(u, u') && u'.selected == u.selected
      && (u.state == Receiving && u'.state == Receiving ==> u'.flash.written == u.flash.written + data)
      && (u'.state == Receiving ==> u.state == Receiving)
  {
    if u.package.valid {
      GenuineSize(t, u.package);
    }
  }

  lemma FinishKeeps(u: Updater, t: Trust, p: Platform)
    requires Streaming(u) && Trusted(u, t)
    ensures var u' := AfterFinish(u, t, p);
      && Streaming(u') && Trusted(u', t) && SessionKept(u, u')
      && (u'.selected != u.selected ==>
            u.state == Receiving && u'.selected == u.selected + [Selection(u.flash.written, u.package)])
  {
    if AfterFinish(u, t, p).selected != u.selected {
      MatchingIsAuthentic(t, Selection(u.flash.written, u.package));
    }
  }

  lemma UpdateStepKeeps(u: Updater, t: Trust, step: UpdateStep)
    requires Streaming(u) && Trusted(u, t)
    ensures var u' := AfterUpdateStep(u, t, step); Streaming(u') && Trusted(u', t) && SessionKept(u, u')
  {
    match step
    case Prepare(manifest, signature, p) => PrepareKeeps(u, t, manifest, signature, p);
    case Begin(p) => BeginKeeps(u, t, p);
    case Write(data, p) => WriteKeeps(u, t, data, p);
    case Finish(p) => FinishKeeps(u, t, p);
    case Upload(first, data, final, p) => UploadKeeps(u, t, first, data, final, p);
    case Tick(h, now) =>
    case Boot(pendingVerify, now) =>
  }

  lemma UploadKeeps(u: Updater, t: Trust, first: bool, data: seq<Byte>, final: bool, p: Platform)
    requires Streaming(u) && Trusted(u, t)
    ensures var u' := AfterUpload(u, t, first, data, final, p); Streaming(u') && Trusted(u', t) && SessionKept(u, u')
  {
    var begun := if first then AfterBegin(u, p) else u;
    BeginKeeps(u, t, p);
    WriteKeeps(begun, t, data, p);
    FinishKeeps(if data == [] then begun else AfterWrite(begun, data, p), t, p);
  }

  /** Boot-image authenticity: whatever calls of the two transports, ticks and restarts come
      in whatever order, and whatever the platform does, every image ever selected for boot
      has the size and digest of one package whose signature verified and whose model,
      hardware, channel and newer build were checked. */
  lemma {:induction false} RunsSelectAuthenticImages(u: Updater, t: Trust, steps: seq<UpdateStep>)
    requires Streaming(u) && Trusted(u, t)
    ensures var u' := AfterUpdateRun(u, t, steps);
      Streaming(u') && Trusted(u', t) && (forall i :: 0 <= i < |u'.selected| ==> Authentic(t, u'.selected[i]))
  {
    if steps != [] {
      RunsSelectAuthenticImages(u, t, steps[..|steps| - 1]);
      UpdateStepKeeps(AfterUpdateRun(u, t, steps[..|steps| - 1]), t, steps[|steps| - 1]);
    }
  }

  // ---- Streaming -------------------------------------------------------------

  function Concat(chunks: seq<seq<Byte>>): seq<Byte> {
    if chunks == [] then [] else Concat(chunks[..|chunks| - 1]) + chunks[|chunks| - 1]
  }

  /** A platform on which nothing fails. */
  predicate Reliable(p: Platform, length: nat) {
    p.hashOk && p.openOk && p.endOk && p.written == length
  }

  function AfterWrites(u: Updater, chunks: seq<seq<Byte>>, platforms: seq<Platform>): Updater
    requires |platforms| == |chunks|
  {
    if chunks == [] then u
    else
      var n := |chunks| - 1;
      AfterWrite(AfterWrites(u, chunks[..n], platforms[..n]), chunks[n], platforms[n])
  }

  /** The chunks so far fit and are in flash, or the session has failed. */
  ghost predicate Streamed(u: Updater, u': Updater, bytes: seq<Byte>) {
    if |bytes| <= u.package.size then
      u'.state == Receiving && u'.flash.Open? && u'.flash.written == bytes && u'.package == u.package
    else u'.state == Failed
  }

  lemma {:induction false} WritesConcatenate(u: Updater, t: Trust, chunks: seq<seq<Byte>>, platforms: seq<Platform>)
    requires Streaming(u) && Trusted(u, t) && u.flash.Open? && u.flash.written == []
    requires |platforms| == |chunks|
    requires forall i :: 0 <= i < |chunks| ==> Reliable(platforms[i], |chunks[i]|)
    ensures var u' := AfterWrites(u, chunks, platforms);
      Streaming(u') && Trusted(u', t) && Streamed(u, u', Concat(chunks)) && u'.selected == u.selected
  {
    if chunks != [] {
      var n := |chunks| - 1;
      WritesConcatenate(u, t, chunks[..n], platforms[..n]);
      var before := AfterWrites(u, chunks[..n], platforms[..n]);
      assert Reliable(platforms[n], |chunks[n]|);
      WriteKeeps(before, t, chunks[n], platforms[n]);
      GenuineSize(t, u.package);
    }
  }

  /** However an image is cut into chunks: on a platform on which nothing fails, an install
      of a prepared package selects exactly these bytes for boot if and only if they have the
      size and the digest the manifest promises. */
  lemma InstallSucceedsIff(u: Updater, t: Trust, begin: Platform, chunks: seq<seq<Byte>>, platforms: seq<Platform>, end: Platform)
    requires Streaming(u) && Trusted(u, t) && u.package.valid && u.state != Receiving
    requires Fits(u.package, begin.partition) && Reliable(begin, 0) && Reliable(end, 0)
    requires |platforms| == |chunks|
    requires forall i :: 0 <= i < |chunks| ==> Reliable(platforms[i], |chunks[i]|)
    ensures var u' := AfterFinish(AfterWrites(AfterBegin(u, begin), chunks, platforms), t, end);
      if |Concat(chunks)| == u.package.size && t.digest(Concat(chunks)) == u.package.sha256 then
        u'.state == PendingReboot && u'.selected == u.selected + [Selection(Concat(chunks), u.package)]
      else u'.state == Failed && u'.selected == u.selected
  {
    BeginKeeps(u, t, begin);
    WritesConcatenate(AfterBegin(u, begin), t, chunks, platforms);
  }

  /** From the manifest to the boot image: on a platform on which nothing fails, preparing a
      signed manifest that is acceptable and installing some bytes, however they are cut into
      chunks, selects these bytes for boot if and only if the manifest promises them. */
  lemma PreparedInstallsIff(
    u: Updater, t: Trust, manifest: string, signature: string, prepare: Platform,
    begin: Platform, chunks: seq<seq<Byte>>, platforms: seq<Platform>, end: Platform)
    requires Streaming(u) && Trusted(u, t) && (u.state == Idle || u.state == ValidImage || u.state == Failed)
    requires Inspect(t, manifest, signature).Described?
    requires t.parse(manifest).Some? && t.parse(manifest).value.Member("size").Integer?
    requires prepare.partition.Some? && t.parse(manifest).value.Member("size").i <= prepare.partition.value
    requires begin.partition == prepare.partition && Reliable(begin, 0) && Reliable(end, 0)
    requires |platforms| == |chunks|
    requires forall i :: 0 <= i < |chunks| ==> Reliable(platforms[i], |chunks[i]|)
    ensures var u1 := AfterPrepare(u, t, manifest, signature, prepare);
      var u' := AfterFinish(AfterWrites(AfterBegin(u1, begin), chunks, platforms), t, end);
      if Promises(t, manifest, signature, Concat(chunks)) then
        && u'.state == PendingReboot
        && |u'.selected| == |u.selected| + 1 && u'.selected[|u.selected|].image == Concat(chunks)
      else u'.state == Failed && u'.selected == u.selected
  {
    var m := Inspect(t, manifest, signature).metadata;
    InspectionIsExact(t, manifest, signature, m);
    PrepareKeeps(u, t, manifest, signature, prepare);
    DescribedIsPromised(t, manifest, signature, m, Concat(chunks));
    InstallSucceedsIff(AfterPrepare(u, t, manifest, signature, prepare), t, begin, chunks, platforms, end);
  }

  // ---- When a call succeeds ---------------------------------------------------

  /** A begin opens a session exactly when a package is prepared that fits, the library is
      idle, and hashing and the library start; otherwise the update has failed. */
  lemma BeginOpensIff(u: Updater, p: Platform)
    requires Streaming(u)
    ensures var u' := AfterBegin(u, p);
      && (u'.state == Receiving <==>
            && u.package.valid && p.partition.Some? && u.package.size <= p.partition.value
            && u.state != Receiving && p.hashOk && p.openOk)
      && (u'.state == Receiving ==> u'.flash == Open(u.package.size, []))
      && (u'.state != Receiving ==> u'.state == Failed && u'.flash == Closed)
      && u'.package == u.package && u'.selected == u.selected && u'.since == p.now
  {
  }

  /** A chunk is taken exactly when all of it fits into the package's size, and hash and
      library take it; otherwise the update has failed. */
  lemma ChunkIsTakenIff(u: Updater, t: Trust, data: seq<Byte>, p: Platform)
    requires Streaming(u) && Trusted(u, t) && u.state == Receiving
    ensures var u' := AfterWrite(u, data, p);
      && (u'.state == Receiving <==>
            |u.flash.written| + |data| <= u.package.size && (data == [] || (p.hashOk && p.written == |data|)))
      && (u'.state == Receiving ==> u'.flash == Open(u.package.size, u.flash.written + data))
      && (u'.state != Receiving ==> u'.state == Failed && u'.flash == Closed)
  {
    GenuineSize(t, u.package);
    assert data == [] ==> u.flash.written + data == u.flash.written;
  }

  /** A finish selects exactly when the bytes have size and digest of the package, and hash
      and library finish; otherwise the update has failed. */
  lemma FinishSelectsIff(u: Updater, t: Trust, p: Platform)
    requires Streaming(u) && u.state == Receiving
    ensures var u' := AfterFinish(u, t, p);
      && (u'.state == PendingReboot <==>
            && |u.flash.written| == u.package.size && t.digest(u.flash.written) == u.package.sha256
            && p.hashOk && p.endOk)
      && u'.selected == u.selected + (if u'.state == PendingReboot then [Selection(u.flash.written, u.package)] else [])
      && (u'.state != PendingReboot ==> u'.state == Failed) && u'.flash == Closed && u'.since == p.now
  {
  }

  // ---- Uploads ----------------------------------------------------------------

  /** The calls of an upload before its last chunk: the first one begins. */
  function AfterChunks(u: Updater, t: Trust, chunks: seq<seq<Byte>>, platforms: seq<Platform>): Updater
    requires |platforms| == |chunks|
  {
    if chunks == [] then u
    else
      var n := |chunks| - 1;
      AfterUpload(AfterChunks(u, t, chunks[..n], platforms[..n]), t, n == 0, chunks[n], false, platforms[n])
  }

  /** All calls of an upload: the last one finishes. */
  function AfterWholeUpload(u: Updater, t: Trust, chunks: seq<seq<Byte>>, platforms: seq<Platform>): Updater
    requires |platforms| == |chunks| && chunks != []
  {
    var n := |chunks| - 1;
    AfterUpload(AfterChunks(u, t, chunks[..n], platforms[..n]), t, n == 0, chunks[n], true, platforms[n])
  }

  /** u' holds these bytes of a session that u1 began, or has failed for their number. */
  ghost predicate Holds(u1: Updater, u': Updater, t: Trust, bytes: seq<Byte>) {
    Streaming(u') && Trusted(u', t) && Streamed(u1, u', bytes) && u'.selected == u1.selected
  }

  lemma ChunkIsHeld(u1: Updater, u: Updater, t: Trust, bytes: seq<Byte>, chunk: seq<Byte>, p: Platform)
    requires Holds(u1, u, t, bytes) && Reliable(p, |chunk|) && Genuine(t, u1.package)
    ensures Holds(u1, if chunk == [] then u else AfterWrite(u, chunk, p), t, bytes + chunk)
  {
    WriteKeeps(u, t, chunk, p);
    GenuineSize(t, u1.package);
    assert chunk == [] ==> bytes + chunk == bytes;
  }

  ghost predicate Uploadable(u: Updater, t: Trust, chunks: seq<seq<Byte>>, platforms: seq<Platform>) {
    && Streaming(u) && Trusted(u, t) && u.package.valid && u.state != Receiving
    && |platforms| == |chunks| > 0 && Fits(u.package, platforms[0].partition)
    && forall i :: 0 <= i < |chunks| ==> Reliable(platforms[i], |chunks[i]|)
  }

  lemma BeginHolds(u: Updater, t: Trust, chunks: seq<seq<Byte>>, platforms: seq<Platform>)
    requires Uploadable(u, t, chunks, platforms)
    ensures var u1 := AfterBegin(u, platforms[0]);
      Holds(u1, u1, t, []) && u1.package == u.package && u1.selected == u.selected && Genuine(t, u1.package)
  {
    assert Reliable(platforms[0], |chunks[0]|);
    BeginKeeps(u, t, platforms[0]);
  }

  /** What the last of some calls adds. */
  lemma LastChunk(u: Updater, t: Trust, chunks: seq<seq<Byte>>, platforms: seq<Platform>)
    returns (before: Updater, bytes: seq<Byte>)
    requires |platforms| == |chunks| > 0
    ensures var n := |chunks| - 1;
      && before == (if n == 0 then AfterBegin(u, platforms[0]) else AfterChunks(u, t, chunks[..n], platforms[..n]))
      && bytes == Concat(chunks[..n]) && (n == 0 ==> bytes == []) && Concat(chunks) == bytes + chunks[n]
      && AfterChunks(u, t, chunks, platforms) == if chunks[n] == [] then before else AfterWrite(before, chunks[n], platforms[n])
  {
    var n := |chunks| - 1;
    before := if n == 0 then AfterBegin(u, platforms[0]) else AfterChunks(u, t, chunks[..n], platforms[..n]);
    bytes := Concat(chunks[..n]);
    assert AfterChunks(u, t, chunks[..0], platforms[..0]) == u;
  }

  lemma {:induction false} ChunksAreHeld(u: Updater, t: Trust, chunks: seq<seq<Byte>>, platforms: seq<Platform>)
    requires Uploadable(u, t, chunks, platforms)
    ensures Holds(AfterBegin(u, platforms[0]), AfterChunks(u, t, chunks, platforms), t, Concat(chunks))
  {
    var n := |chunks| - 1;
    var before, bytes := LastChunk(u, t, chunks, platforms);
    BeginHolds(u, t, chunks, platforms);
    assert Reliable(platforms[n], |chunks[n]|);
    if n > 0 {
      ChunksAreHeld(u, t, chunks[..n], platforms[..n]);
    }
    ChunkIsHeld(AfterBegin(u, platforms[0]), before, t, bytes, chunks[n], platforms[n]);
  }

  lemma WholeUploadFinishes(u: Updater, t: Trust, chunks: seq<seq<Byte>>, platforms: seq<Platform>)
    requires |platforms| == |chunks| > 0
    ensures AfterWholeUpload(u, t, chunks, platforms)
         == AfterFinish(AfterChunks(u, t, chunks, platforms), t, platforms[|platforms| - 1])
  {
  }

  /** An upload, however it is cut into chunks, selects its bytes for boot if and only if they
      have the size and the digest of the prepared package, on a platform on which nothing
      fails. */
  lemma UploadInstallsIff(u: Updater, t: Trust, chunks: seq<seq<Byte>>, platforms: seq<Platform>)
    requires Uploadable(u, t, chunks, platforms)
    ensures var u' := AfterWholeUpload(u, t, chunks, platforms);
      if |Concat(chunks)| == u.package.size && t.digest(Concat(chunks)) == u.package.sha256 then
        u'.state == PendingReboot && u'.selected == u.selected + [Selection(Concat(chunks), u.package)]
      else u'.state == Failed && u'.selected == u.selected
  {
    BeginHolds(u, t, chunks, platforms);
    ChunksAreHeld(u, t, chunks, platforms);
    WholeUploadFinishes(u, t, chunks, platforms);
    assert Reliable(platforms[|chunks| - 1], |chunks[|chunks| - 1]|);
  }

  /** An image that was selected is rebooted into 750 ms later, once, and nothing else changes. */
  lemma SelectedIsRebootedInto(u: Updater, h: Health, now: nat)
    requires u.state == PendingReboot
    ensures AfterTick(u, h, now) == u.(reboots := u.reboots + if (now - u.since) % UINT32_LIMIT >= 750 then 1 else 0)
  {
  }

  /** A boot into an image that is pending verification opens its window, at that time and with
      nothing prepared; any other boot starts idle. What was selected stays on record. */
  lemma BootOpensTheWindow(u: Updater, pendingVerify: bool, now: nat)
    ensures var u' := AfterBoot(u, pendingVerify, now);
      && u'.state == (if pendingVerify then PendingVerify else Idle) && u'.since == now && !u'.package.valid
      && u'.flash == Closed && !u'.sessionOpen && u'.hash == None && u'.received == 0
      && u'.selected == u.selected && u'.reboots == u.reboots
  {
  }

  // ---- The verdict on a new image --------------------------------------------

  /** A tick at an absolute time in milliseconds, of which millis() shows the low 32 bits. */
  datatype TimedTick = TimedTick(time: nat, h: Health)

  function AfterTicks(u: Updater, ticks: seq<TimedTick>): Updater {
    if ticks == [] then u
    else AfterTick(AfterTicks(u, ticks[..|ticks| - 1]), ticks[|ticks| - 1].h, ticks[|ticks| - 1].time % UINT32_LIMIT)
  }

  /** What a tick decides about an image pending verification since `start`. */
  function Verdict(start: nat, tick: TimedTick): Option<UpdateState> {
    var elapsed := (tick.time - start) % UINT32_LIMIT;
    if Healthy(tick.h) && elapsed >= VALIDATION_MIN_MS then Some(if tick.h.markOk then ValidImage else Failed)
    else if !Healthy(tick.h) && elapsed >= VALIDATION_TIMEOUT_MS then Some(RolledBack)
    else None
  }

  lemma ElapsedWraps(time: nat, start: nat)
    ensures Elapsed(time % UINT32_LIMIT, start % UINT32_LIMIT) == (time - start) % UINT32_LIMIT
  {
    var k := time / UINT32_LIMIT - start / UINT32_LIMIT;
    assert time - start == time % UINT32_LIMIT - start % UINT32_LIMIT + UINT32_LIMIT * k;
  }

  ghost predicate Undecided(start: nat, ticks: seq<TimedTick>) {
    forall i :: 0 <= i < |ticks| ==> Verdict(start, ticks[i]) == None
  }

  /** Tick i is the first to decide. */
  ghost predicate Decides(start: nat, ticks: seq<TimedTick>, i: nat, verdict: UpdateState) {
    i < |ticks| && Undecided(start, ticks[..i]) && Verdict(start, ticks[i]) == Some(verdict)
  }

  /** The verdict of the first tick that decides. */
  ghost function FirstVerdict(start: nat, ticks: seq<TimedTick>): Option<UpdateState> {
    if ticks == [] then None
    else if FirstVerdict(start, ticks[..|ticks| - 1]).Some? then FirstVerdict(start, ticks[..|ticks| - 1])
    else Verdict(start, ticks[|ticks| - 1])
  }

  ghost predicate Decided(start: nat, ticks: seq<TimedTick>, verdict: UpdateState) {
    exists i: nat :: Decides(start, ticks, i, verdict)
  }

  lemma {:induction false} FirstVerdictIsFirst(start: nat, ticks: seq<TimedTick>)
    ensures match FirstVerdict(start, ticks)
      case None => Undecided(start, ticks)
      case Some(verdict) => Decided(start, ticks, verdict)
  {
    if ticks != [] {
      var n := |ticks| - 1;
      FirstVerdictIsFirst(start, ticks[..n]);
      if FirstVerdict(start, ticks[..n]).Some? {
        var verdict := FirstVerdict(start, ticks[..n]).value;
        var i: nat :| Decides(start, ticks[..n], i, verdict);
        assert ticks[..n][..i] == ticks[..i];
        assert Decides(start, ticks, i, verdict);
      } else if Verdict(start, ticks[n]).Some? {
        assert Decides(start, ticks, n, Verdict(start, ticks[n]).value);
      }
    }
  }

  /** Over any ticks with no install call between them, the state after the window is the
      verdict of the first tick that decides, and nothing changes as long as none does. */
  lemma {:induction false} FirstVerdictStands(u: Updater, start: nat, ticks: seq<TimedTick>)
    requires u.state == PendingVerify && u.since == start % UINT32_LIMIT
    ensures match FirstVerdict(start, ticks)
      case None => AfterTicks(u, ticks) == u
      case Some(verdict) => AfterTicks(u, ticks).state == verdict && verdict in {ValidImage, Failed, RolledBack}
  {
    if ticks != [] {
      FirstVerdictStands(u, start, ticks[..|ticks| - 1]);
      ElapsedWraps(ticks[|ticks| - 1].time, start);
    }
  }

  /** A verdict is never early: VALID needs a healthy tick at least 10 s in, ROLLBACK an
      unhealthy one at least 30 s in. A tick whose modular elapsed time is at least 30 s
      always decides. */
  lemma VerdictIsTimely(start: nat, tick: TimedTick)
    requires start <= tick.time
    ensures Verdict(start, tick) == Some(ValidImage) ==>
      tick.h.storageReady && tick.h.heap >= 60000 && tick.h.markOk && tick.time - start >= 10000
    ensures Verdict(start, tick) == Some(RolledBack) ==>
      (!tick.h.storageReady || tick.h.heap < 60000) && tick.time - start >= 30000
    ensures Verdict(start, tick) == Some(Failed) ==> tick.h.storageReady && tick.h.heap >= 60000 && !tick.h.markOk
    ensures (tick.time - start) % UINT32_LIMIT >= 30000 ==> Verdict(start, tick).Some?
    ensures tick.h.storageReady && tick.h.heap >= 60000 && (tick.time - start) % UINT32_LIMIT >= 10000 ==>
      Verdict(start, tick) == Some(if tick.h.markOk then ValidImage else Failed)
  {
    WrapOnlyShortens(tick.time - start);
  }

  lemma WrapOnlyShortens(elapsed: nat)
    ensures elapsed % UINT32_LIMIT <= elapsed
    ensures elapsed < UINT32_LIMIT ==> elapsed % UINT32_LIMIT == elapsed
  {
  }

  /** Time only moves forward, and some tick falls into every stretch of 2^32 - 30000 ms. */
  ghost predicate Regular(start: nat, ticks: seq<TimedTick>) {
    forall i :: 0 <= i < |ticks| ==>
      Before(start, ticks, i) <= ticks[i].time < Before(start, ticks, i) + UINT32_LIMIT - VALIDATION_TIMEOUT_MS
  }

  ghost function Before(start: nat, ticks: seq<TimedTick>, i: nat): nat
    requires i < |ticks|
  {
    if i == 0 then start else ticks[i - 1].time
  }

  /** With regular ticks the window closes: once a tick comes 30 s or more after the start,
      the image is no longer pending. */
  lemma {:induction false} VerdictIsReached(start: nat, ticks: seq<TimedTick>)
    requires ticks != [] && Regular(start, ticks) && ticks[|ticks| - 1].time - start >= VALIDATION_TIMEOUT_MS
    ensures !Undecided(start, ticks)
  {
    var n := |ticks| - 1;
    if n > 0 && ticks[n - 1].time - start >= VALIDATION_TIMEOUT_MS {
      assert forall i :: 0 <= i < n ==> Before(start, ticks[..n], i) == Before(start, ticks, i);
      VerdictIsReached(start, ticks[..n]);
      var i :| 0 <= i < n && Verdict(start, ticks[..n][i]).Some?;
      assert Verdict(start, ticks[i]).Some?;
    } else {
      StartsBefore(start, ticks, n);
      WrapOnlyShortens(ticks[n].time - start);
      assert Verdict(start, ticks[n]).Some?;
    }
  }

  lemma {:induction false} StartsBefore(start: nat, ticks: seq<TimedTick>, i: nat)
    requires Regular(start, ticks) && i < |ticks|
    ensures start <= ticks[i].time
  {
    if i > 0 {
      StartsBefore(start, ticks, i - 1);
    }
  }

  /** Regularity cannot be dropped: a single unhealthy tick exactly 2^32 ms in sees an elapsed
      time of 0 and leaves the image pending. */
  lemma WrappedTickDecidesNothing(u: Updater, start: nat, h: Health)
    requires u.state == PendingVerify && u.since == start % UINT32_LIMIT
    ensures AfterTicks(u, [TimedTick(start + UINT32_LIMIT, h)]) == u
  {
    var tick := TimedTick(start + UINT32_LIMIT, h);
    assert [tick][..0] == [];
    ElapsedWraps(tick.time, start);
    assert (tick.time - start) % UINT32_LIMIT == 0;
  }

  /** Neither can the absence of install calls: no package can be prepared in the window, and
      an upload begun in it fails and leaves the image without any verdict. */
  lemma {:induction false} InstallCallEndsTheWindow(
    u: Updater, t: Trust, manifest: string, signature: string, p: Platform, ticks: seq<TimedTick>)
    requires u.state == PendingVerify && !u.package.valid
    ensures AfterPrepare(u, t, manifest, signature, p) == u
    ensures AfterTicks(AfterBegin(u, p), ticks).state == Failed
  {
    if ticks != [] {
      InstallCallEndsTheWindow(u, t, manifest, signature, p, ticks[..|ticks| - 1]);
    }
  }

  // ---- Which images end without a verdict --------------------------------------

  /** A tick that decides, in a window open since the given time. */
  predicate Decisive(since: nat, step: UpdateStep) {
    step.Tick? && Elapsed(step.now, since) >= if Healthy(step.h) then VALIDATION_MIN_MS else VALIDATION_TIMEOUT_MS
  }

  /** A begin of either transport. */
  predicate Begins(step: UpdateStep) {
    step.Begin? || (step.Upload? && step.first)
  }

  ghost predicate Uneventful(since: nat, steps: seq<UpdateStep>) {
    forall i :: 0 <= i < |steps| ==> !Decisive(since, steps[i]) && !Begins(steps[i])
  }

  /** The image awaits its verdict. After a boot no package is prepared. */
  ghost predicate InWindow(u: Updater) {
    u.state == PendingVerify && !u.package.valid
  }

  ghost predicate NoReset(steps: seq<UpdateStep>) {
    forall i :: 0 <= i < |steps| ==> !steps[i].Boot?
  }

  /** In the window a step changes nothing, unless it is a begin or a tick that decides, which
      end it; outside it nothing but a reset opens it again. */
  lemma WindowStep(u: Updater, t: Trust, step: UpdateStep)
    requires !step.Boot?
    ensures var u' := AfterUpdateStep(u, t, step);
      && (InWindow(u) && !Decisive(u.since, step) && !Begins(step) ==> u' == u)
      && (InWindow(u) && (Decisive(u.since, step) || Begins(step)) ==> u'.state != PendingVerify)
      && (u.state != PendingVerify ==> u'.state != PendingVerify)
  {
  }

  /** Over any mixture of ticks and calls, the window stays open, with nothing changed, as
      long as no begin and no deciding tick comes, and is closed for good afterwards. */
  lemma {:induction false} WindowLasts(u: Updater, t: Trust, steps: seq<UpdateStep>)
    requires InWindow(u) && NoReset(steps)
    ensures Uneventful(u.since, steps) ==> AfterUpdateRun(u, t, steps) == u
    ensures !Uneventful(u.since, steps) ==> AfterUpdateRun(u, t, steps).state != PendingVerify
  {
    if steps != [] {
      var n := |steps| - 1;
      WindowLasts(u, t, steps[..n]);
      WindowStep(AfterUpdateRun(u, t, steps[..n]), t, steps[n]);
      assert steps == steps[..n] + [steps[n]];
      if Uneventful(u.since, steps[..n]) && !Decisive(u.since, steps[n]) && !Begins(steps[n]) {
        assert Uneventful(u.since, steps);
      } else if !Uneventful(u.since, steps[..n]) {
        var i :| 0 <= i < n && (Decisive(u.since, steps[..n][i]) || Begins(steps[..n][i]));
        assert Decisive(u.since, steps[i]) || Begins(steps[i]);
      }
    }
  }

  /** Step i, a tick or anything else, takes the image out of the window. */
  ghost predicate EndsAt(u: Updater, t: Trust, steps: seq<UpdateStep>, i: nat) {
    && i < |steps| && AfterUpdateRun(u, t, steps[..i]).state == PendingVerify
    && AfterUpdateRun(u, t, steps[..i + 1]).state != PendingVerify
  }

  lemma EndsAtIff(u: Updater, t: Trust, steps: seq<UpdateStep>, i: nat)
    requires InWindow(u) && i < |steps| && NoReset(steps)
    ensures EndsAt(u, t, steps, i)
      <==> Uneventful(u.since, steps[..i]) && (Decisive(u.since, steps[i]) || Begins(steps[i]))
  {
    WindowLasts(u, t, steps[..i]);
    assert steps[..i + 1][..i] == steps[..i];
    if Uneventful(u.since, steps[..i]) {
      WindowStep(u, t, steps[i]);
    }
  }

  /** The image was judged: some tick took it out of the window. */
  ghost predicate Judged(u: Updater, t: Trust, steps: seq<UpdateStep>) {
    exists i: nat :: EndsAt(u, t, steps, i) && steps[i].Tick?
  }

  /** It was given up unjudged: something other than a tick did. */
  ghost predicate GivenUp(u: Updater, t: Trust, steps: seq<UpdateStep>) {
    exists i: nat :: EndsAt(u, t, steps, i) && !steps[i].Tick?
  }

  ghost predicate FirstIs(since: nat, steps: seq<UpdateStep>, i: nat) {
    i < |steps| && Uneventful(since, steps[..i]) && (Decisive(since, steps[i]) || Begins(steps[i]))
  }

  /** Over any mixture of ticks, calls and chunks of both transports: the image is judged if
      and only if a deciding tick comes before any begin, and it ends without a verdict if
      and only if a begin comes before any deciding tick. */
  lemma VerdictIff(u: Updater, t: Trust, steps: seq<UpdateStep>)
    requires InWindow(u) && NoReset(steps)
    ensures Judged(u, t, steps) <==> exists i: nat :: FirstIs(u.since, steps, i) && Decisive(u.since, steps[i])
    ensures GivenUp(u, t, steps) <==> exists i: nat :: FirstIs(u.since, steps, i) && Begins(steps[i])
  {
    forall i: nat | i < |steps|
      ensures EndsAt(u, t, steps, i) <==> FirstIs(u.since, steps, i)
    {
      EndsAtIff(u, t, steps, i);
    }
  }

  // ---- The class -------------------------------------------------------------

  class FirmwareUpdater {
    const verifier: PackageVerifier
    var state: UpdateState
    var since: nat
    var received: nat
    var sessionOpen: bool
    var hashActive: bool
    var hashed: seq<Byte>
    var flash: Flash
    ghost var selected: seq<Selection>
    ghost var reboots: nat

    ghost function Snapshot(): Updater
      reads this, verifier
    {
      Updater(state, since, received, sessionOpen, if hashActive then Some(hashed) else None,
              verifier.metadata, flash, selected, reboots)
    }

    constructor (verifier: PackageVerifier)
      requires verifier.metadata == NO_METADATA
      ensures this.verifier == verifier && Snapshot() == NEW_UPDATER
    {
      this.verifier := verifier;
      state, since, received, sessionOpen, hashActive, hashed := Idle, 0, 0, false, false, [];
      flash, selected, reboots := Closed, [], 0;
    }

    /** `begin` after a reset, which also closes the library's session. */
    method BeginService(pendingVerify: bool, now: nat)
      modifies this, verifier
      ensures Snapshot() == AfterBoot(old(Snapshot()), pendingVerify, now)
    {
      flash := Closed;
      verifier.Clear();
      hashActive, sessionOpen, received := false, false, 0;
      SetState(if pendingVerify then PendingVerify else Idle, now);
    }

    method SetState(next: UpdateState, now: nat)
      modifies this`state, this`since
      ensures state == next && since == now
    {
      state, since := next, now;
    }

    method FailUpdate(now: nat)
      modifies this
      ensures Snapshot() == Fail(old(Snapshot()), now)
    {
      if sessionOpen {
        flash := Closed;
        sessionOpen := false;
      }
      hashActive := false;
      SetState(Failed, now);
    }

    method PreparePackage(manifest: string, signature: string, p: Platform) returns (error: Option<UpdateError>)
      modifies verifier
      ensures Snapshot() == AfterPrepare(old(Snapshot()), verifier.trust, manifest, signature, p)
      ensures error == None <==> CanPrepare(state) && verifier.metadata.valid
    {
      if !CanPrepare(state) {
        return Some(UpdateBusy);
      }
      var refused := verifier.Prepare(manifest, signature);
      if refused.Some? {
        return Some(PackageRefused(refused.value));
      }
      if p.partition.None? || verifier.metadata.size > p.partition.value {
        verifier.Clear();
        return Some(FirmwareTooLarge);
      }
      InspectionIsExact(verifier.trust, manifest, signature, verifier.metadata);
      return None;
    }

    method BeginPreparedInstall(p: Platform) returns (error: Option<UpdateError>)
      modifies this
      ensures Snapshot() == AfterBegin(old(Snapshot()), p)
      ensures error == None <==> state == Receiving
    {
      received := 0;
      if !verifier.metadata.valid {
        FailUpdate(p.now);
        return Some(NotPrepared);
      }
      if p.partition.None? || verifier.metadata.size > p.partition.value {
        FailUpdate(p.now);
        return Some(FirmwareTooLarge);
      }
      hashActive, hashed := false, [];
      if !p.hashOk {
        FailUpdate(p.now);
        return Some(HashBeginFailed);
      }
      hashActive := true;
      SetState(Receiving, p.now);
      if flash.Open? || !p.openOk {
        FailUpdate(p.now);
        return Some(UpdateBeginFailed);
      }
      flash := Open(verifier.metadata.size, []);
      sessionOpen := true;
      return None;
    }

    method WritePreparedChunk(data: seq<Byte>, p: Platform) returns (error: Option<UpdateError>)
      modifies this
      ensures Snapshot() == AfterWrite(old(Snapshot()), data, p)
      ensures error == None <==> state == Receiving
    {
      if state != Receiving {
        return Some(NotReceiving);
      }
      if (received + |data|) % UINT32_LIMIT > verifier.metadata.size {
        FailUpdate(p.now);
        return Some(SizeExceeded);
      }
      if |data| == 0 {
        return None;
      }
      if !hashActive || !p.hashOk {
        FailUpdate(p.now);
        return Some(HashUpdateFailed);
      }
      hashed := hashed + data;
      var written := Taken(flash, data, p);
      if written != |data| {
        FailUpdate(p.now);
        return Some(WriteFailed);
      }
      flash := Stored(flash, data);
      received := (received + written) % UINT32_LIMIT;
      return None;
    }

    method FinishPreparedInstall(p: Platform) returns (error: Option<UpdateError>)
      modifies this
      ensures Snapshot() == AfterFinish(old(Snapshot()), verifier.trust, p)
      ensures error == None <==> old(state) == Receiving && state == PendingReboot
    {
      if state != Receiving {
        return Some(NotReceiving);
      }
      SetState(Finalizing, p.now);
      if received != verifier.metadata.size {
        FailUpdate(p.now);
        return Some(SizeMismatch);
      }
      if !hashActive || !p.hashOk {
        hashActive := false;
        FailUpdate(p.now);
        return Some(HashFinishFailed);
      }
      hashActive := false;
      if verifier.trust.digest(hashed) != verifier.metadata.sha256 {
        FailUpdate(p.now);
        return Some(DigestMismatch);
      }
      if flash.Closed? || !p.endOk {
        FailUpdate(p.now);
        return Some(UpdateEndFailed);
      }
      selected := selected + [Selection(flash.written, verifier.metadata)];
      flash, sessionOpen := Closed, false;
      SetState(PendingReboot, p.now);
      return None;
    }

    /** The web upload handler. */
    method UploadChunk(first: bool, data: seq<Byte>, final: bool, p: Platform)
      modifies this
      ensures Snapshot() == AfterUpload(old(Snapshot()), verifier.trust, first, data, final, p)
    {
      if first {
        var error := BeginPreparedInstall(p);
        if error.Some? {
          return;
        }
      }
      if state != Receiving {
        return;
      }
      if |data| > 0 {
        var error := WritePreparedChunk(data, p);
        if error.Some? {
          return;
        }
      }
      if final {
        var _ := FinishPreparedInstall(p);
      }
    }

    method Tick(h: Health, now: nat)
      modifies this
      ensures Snapshot() == AfterTick(old(Snapshot()), h, now)
    {
      if state == PendingReboot && Elapsed(now, since) >= REBOOT_DELAY_MS {
        reboots := reboots + 1;
        return;
      }
      if state != PendingVerify {
        return;
      }
      var elapsed := Elapsed(now, since);
      var healthy := h.storageReady && h.heap >= MIN_HEAP;
      if healthy && elapsed >= VALIDATION_MIN_MS {
        if h.markOk {
          SetState(ValidImage, now);
        } else {
          FailUpdate(now);
        }
        return;
      }
      if !healthy && elapsed >= VALIDATION_TIMEOUT_MS {
        SetState(RolledBack, now);
      }
    }
  }
}
