/**
 A whole update when nothing fails: from the announcement of an image to its
 confirmation as the running firmware.
*/
module OtaInstalls {
  import opened Prelude
  import opened OtaAnswers
  import opened OtaImages
  import opened OtaInvariant
  import opened OtaModel
  import opened OtaRuns
  import opened OtaSteps
  import opened OtaTheorems

  /** A call in a world where everything works. */
  function Works(w: World, call: Call, sha: Bytes -> Digest): World {
    Step(w, Invoke(call, []), sha)
  }

  lemma CallWorks(w: World, call: Call, sha: Bytes -> Digest)
    requires Inv(w, sha) && w.dev.powered && Guarded(w, call) && Due(w, call, Done, sha)
    ensures Inv(Works(w, call, sha), sha) && Achieved(w, call, [], sha, Works(w, call, sha))
  {
    hide Inv; hide Due; hide Achieved; hide Perform; hide Guarded;
    WorkingCallSucceeds(w, call, [], sha);
    SuccessMeans(w, call, [], sha);
    SafeCallExact(w, call, [], sha);
  }

  function Joined(chunks: seq<Bytes>): Bytes {
    if chunks == [] then [] else Joined(chunks[..|chunks| - 1]) + chunks[|chunks| - 1]
  }

  predicate Chunked(chunks: seq<Bytes>) {
    forall i :: 0 <= i < |chunks| ==> 0 < |chunks[i]| <= 4096
  }

  function Sent(w: World, chunks: seq<Bytes>, sha: Bytes -> Digest): World {
    if chunks == [] then w
    else
      Works(Sent(w, chunks[..|chunks| - 1], sha),
            Chunk(w.s.operationId, w.s.generation, chunks[|chunks| - 1]), sha)
  }

  /** The upload opened in `w`, with `data` received so far. */
  ghost predicate Receiving(w: World, v: World, data: Bytes) {
    && v.dev.powered && v.s.phase.Uploading() && v.dev.spare.data == data
    && v.s.bytesReceived == |data| && v.s.imageSize == w.s.imageSize && v.s.expectedSha == w.s.expectedSha
    && v.s.operationId == w.s.operationId && v.s.generation == w.s.generation
    && v.dev.current == w.dev.current && v.dev.running == w.dev.running && v.dev.bootable == w.dev.bootable
  }

  lemma {:induction false} ChunksArrive(w: World, chunks: seq<Bytes>, sha: Bytes -> Digest)
    requires Inv(w, sha) && Receiving(w, w, []) && Chunked(chunks) && |Joined(chunks)| <= w.s.imageSize
    ensures Inv(Sent(w, chunks, sha), sha) && Receiving(w, Sent(w, chunks, sha), Joined(chunks))
  {
    if chunks != [] {
      var n := |chunks| - 1;
      ChunksArrive(w, chunks[..n], sha);
      var v := Sent(w, chunks[..n], sha);
      OneChunk(w, v, Joined(chunks[..n]), chunks[n], sha);
    }
  }

  lemma OneChunk(w: World, v: World, data: Bytes, bytes: Bytes, sha: Bytes -> Digest)
    requires Inv(v, sha) && Receiving(w, v, data) && 0 < |bytes| <= 4096 && |data| + |bytes| <= w.s.imageSize
    ensures var u := Works(v, Chunk(w.s.operationId, w.s.generation, bytes), sha);
            Inv(u, sha) && Receiving(w, u, data + bytes)
  {
    var call := Chunk(w.s.operationId, w.s.generation, bytes);
    UploadIsNumbered(v, sha);
    hide Inv; hide Perform;
    CallWorks(v, call, sha);
    OnlyFourCallsTouchImages(v.(env := [], next := 0), call, sha);
  }

  lemma UploadIsNumbered(v: World, sha: Bytes -> Digest)
    requires Inv(v, sha) && v.dev.powered && v.s.phase.Uploading()
    ensures v.s.operationId != 0 && v.s.generation != 0
    ensures v.dev.boot == v.dev.running && v.s.target == Some(v.dev.Inactive())
  {
  }

  /** What a manager must be for an upload of `image` to be due. */
  predicate Open(w: World, image: Bytes) {
    && w.dev.powered && w.s.phase.AcceptsUpload() && w.dev.current.state.Valid? && !StoreClaimsSpare(w.dev)
    && 0 < |image| <= 5 * 1024 * 1024 && |image| <= w.dev.slotSize && w.dev.bootable(image)
    && w.s.generation < MAX_U64 && w.dev.counter < MAX_U64
  }

  function Announced(w: World, op: nat, image: Bytes, sha: Bytes -> Digest): World {
    Works(w, Begin(UploadRequest(op, w.s.generation, |image|, sha(image))), sha)
  }

  lemma AnnouncementOpens(w: World, op: nat, image: Bytes, sha: Bytes -> Digest)
    requires Inv(w, sha) && Open(w, image) && op != 0
    ensures var v := Announced(w, op, image, sha);
            && Inv(v, sha) && Receiving(v, v, []) && v.s.imageSize == |image| && v.s.expectedSha == sha(image)
            && v.dev.current == w.dev.current && v.dev.running == w.dev.running && v.dev.bootable(image)
  {
    var call := Begin(UploadRequest(op, w.s.generation, |image|, sha(image)));
    hide Inv; hide Perform;
    CallWorks(w, call, sha);
    OnlyFourCallsTouchImages(w.(env := [], next := 0), call, sha);
  }

  function Uploaded(w: World, op: nat, chunks: seq<Bytes>, sha: Bytes -> Digest): World {
    var v := Announced(w, op, Joined(chunks), sha);
    Works(Sent(v, chunks, sha), Finish(v.s.operationId, v.s.generation), sha)
  }

  /** An image that is sent whole, in any pieces, is staged. */
  lemma UploadStages(w: World, op: nat, chunks: seq<Bytes>, sha: Bytes -> Digest)
    requires Inv(w, sha) && Open(w, Joined(chunks)) && Chunked(chunks) && op != 0
    ensures var v := Uploaded(w, op, chunks, sha);
            && Inv(v, sha) && v.dev.powered && v.s.phase.ReadyToReboot?
            && v.s.validated && !v.s.intent && !v.s.activated
            && v.s.target == Some(v.dev.Inactive()) && v.dev.spare.data == Joined(chunks)
            && v.dev.current == w.dev.current && v.dev.running == w.dev.running
            && v.s.operationId != 0 && v.s.generation != 0
  {
    var image := Joined(chunks);
    AnnouncementOpens(w, op, image, sha);
    var v := Announced(w, op, image, sha);
    ChunksArrive(v, chunks, sha);
    hide Inv; hide Joined; hide Sent; hide Announced; hide Works;
    ReceivedIsStaged(v, Sent(v, chunks, sha), image, sha);
  }

  lemma ReceivedIsStaged(w: World, u: World, image: Bytes, sha: Bytes -> Digest)
    requires Inv(u, sha) && Receiving(w, u, image) && w.s.imageSize == |image| && w.s.expectedSha == sha(image)
    requires w.dev.bootable(image)
    ensures var v := Works(u, Finish(w.s.operationId, w.s.generation), sha);
            && Inv(v, sha) && v.dev.powered && v.s.phase.ReadyToReboot?
            && v.s.validated && !v.s.intent && !v.s.activated
            && v.s.target == Some(v.dev.Inactive()) && v.dev.spare.data == image
            && v.dev.current == w.dev.current && v.dev.running == w.dev.running
            && v.s.operationId != 0 && v.s.generation != 0
  {
    UploadIsNumbered(u, sha);
    var call := Finish(w.s.operationId, w.s.generation);
    hide Inv; hide Perform;
    CallWorks(u, call, sha);
    OnlyFourCallsTouchImages(u.(env := [], next := 0), call, sha);
    StagedIsOwned(Works(u, call, sha), sha);
  }

  lemma StagedIsOwned(v: World, sha: Bytes -> Digest)
    requires Inv(v, sha) && v.dev.powered && v.s.phase.ReadyToReboot?
    ensures v.s.operationId != 0 && v.s.generation != 0
    ensures !v.s.intent ==> v.dev.boot == v.dev.running
  {
  }

  function Activated(v: World, sha: Bytes -> Digest): World {
    Works(v, Activation(v.s.operationId, v.s.generation), sha)
  }

  lemma ActivationStaysOn(v: World, sha: Bytes -> Digest)
    requires Inv(v, sha) && v.dev.powered && Due(v, Activation(v.s.operationId, v.s.generation), Done, sha)
    ensures Activated(v, sha).dev.powered
  {
    hide Activate;
    ActivateWorks(v.(env := [], next := 0), v.s.operationId, v.s.generation, sha);
  }

  function Requested(v: World, sha: Bytes -> Digest): World {
    Works(Activated(v, sha), RebootRequest(v.s.operationId, v.s.generation), sha)
  }

  /** A staged image is selected and the reset recorded. */
  lemma StagedIsSelected(v: World, sha: Bytes -> Digest)
    requires Inv(v, sha) && v.dev.powered && v.s.phase.ReadyToReboot? && !v.s.intent && !v.s.activated
    requires v.s.target == Some(v.dev.Inactive()) && v.dev.current.state.Valid?
    ensures var u := Requested(v, sha);
            && Inv(u, sha) && u.dev.powered && u.dev.boot == v.dev.Inactive() && u.dev.running == v.dev.running
            && u.dev.spare.data == v.dev.spare.data && u.dev.current == v.dev.current
  {
    StagedIsOwned(v, sha);
    var w := Activated(v, sha);
    hide Inv; hide Perform;
    CallWorks(v, Activation(v.s.operationId, v.s.generation), sha);
    ActivationStaysOn(v, sha);
    CallWorks(w, RebootRequest(v.s.operationId, v.s.generation), sha);
  }

  function Rebooted(v: World, sha: Bytes -> Digest): World { Step(v, Restart([]), sha) }

  lemma SelectedBoots(u: World, sha: Bytes -> Digest)
    requires Inv(u, sha) && u.dev.boot == u.dev.Inactive()
    ensures var v := Rebooted(u, sha);
            && Inv(v, sha) && v.dev.powered && v.s.phase.CandidateBoot? && v.s.validated
            && v.dev.running == u.dev.Inactive() && v.dev.current == Image(PendingVerify, u.dev.spare.data)
            && v.dev.spare == u.dev.current && v.dev.uptime == 0 && v.s.candidateStartedMs == 0
  {
    RestartKeeps(u, [], sha);
    RebootRestores(u.dev, sha);
    var d := u.dev.Reboot();
    SelectedIsPending(u, sha);
    BootReads(d, []);
    PendingBoot(d, [], sha);
  }

  lemma SelectedIsPending(u: World, sha: Bytes -> Digest)
    requires Inv(u, sha) && u.dev.boot == u.dev.Inactive()
    ensures var d := u.dev.Reboot();
            && d.current == Image(PendingVerify, u.dev.spare.data) && d.spare == u.dev.current
            && d.running == u.dev.Inactive() && d.uptime == 0
            && d.record.Some? && d.record.value.target == Some(d.running)
  {
  }

  function Kept(v: World, sha: Bytes -> Digest): World {
    Works(Step(v, Wait(30000), sha), Confirmation, sha)
  }

  lemma CandidateIsKept(v: World, sha: Bytes -> Digest)
    requires Inv(v, sha) && v.dev.powered && v.s.phase.CandidateBoot? && v.s.validated
    requires v.dev.current.state.PendingVerify? && v.dev.uptime == 0 && v.s.candidateStartedMs == 0
    ensures var u := Kept(v, sha);
            && Inv(u, sha) && u.s.phase.Confirmed? && u.dev.running == v.dev.running
            && u.dev.current == v.dev.current.(state := Valid) && u.dev.spare == v.dev.spare
  {
    var w := Step(v, Wait(30000), sha);
    WaitKeeps(v, 30000, sha);
    hide Inv; hide Perform;
    CallWorks(w, Confirmation, sha);
  }

  function Installed(w: World, op: nat, chunks: seq<Bytes>, sha: Bytes -> Digest): World {
    Kept(Rebooted(Requested(Uploaded(w, op, chunks, sha), sha), sha), sha)
  }

  /** When nothing fails, any image the bootloader accepts, sent in any pieces
      from any state that may begin an upload, ends as the confirmed running
      firmware, byte for byte, with the old one kept in the other slot. */
  lemma EveryImageInstalls(w: World, op: nat, chunks: seq<Bytes>, sha: Bytes -> Digest)
    requires Inv(w, sha) && Open(w, Joined(chunks)) && Chunked(chunks) && op != 0
    ensures var v := Installed(w, op, chunks, sha);
            && Inv(v, sha) && v.s.phase.Confirmed? && v.dev.running == w.dev.Inactive()
            && v.dev.current == Image(Valid, Joined(chunks)) && v.dev.spare == w.dev.current
  {
    var u := Uploaded(w, op, chunks, sha);
    UploadStages(w, op, chunks, sha);
    hide Inv; hide Uploaded; hide Requested; hide Rebooted; hide Kept; hide Joined;
    StagedIsSelected(u, sha);
    SelectedBoots(Requested(u, sha), sha);
    CandidateIsKept(Rebooted(Requested(u, sha), sha), sha);
  }
}
