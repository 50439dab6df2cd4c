/**
 The firmware updater as the platform sees it: two application slots, the boot
 selection, the durable update record, and the calls that change them. Every
 call can be refused, can take effect and still report an error, or can be the
 point at which power is lost.
*/
module OtaModel {
  import opened Prelude

  const MAXIMUM_IMAGE_BYTES: nat := 5 * 1024 * 1024
  const MAXIMUM_CHUNK_BYTES: nat := 4096
  const PROGRESS_INTERVAL_BYTES: nat := 512 * 1024
  const CONFIRMATION_WINDOW_MS: nat := 30000

  datatype Slot = SlotA | SlotB {
    function Other(): Slot { if SlotA? then SlotB else SlotA }
  }

  datatype ImageState = Unknown | NewImage | PendingVerify | Valid | Invalid | Aborted | Undefined {
    /** The bootloader has neither confirmed nor rolled back this image. */
    predicate Pending() { PendingVerify? || NewImage? }
  }

  datatype Phase =
    | Idle | UploadReceiving | Writing | Validating | ReadyToActivate | ReadyToReboot
    | RebootPending | CandidateBoot | ValidatingCandidate | Confirmed | RollbackPending
    | RolledBack | Failed
  {
    predicate Uploading() { UploadReceiving? || Writing? }
    predicate Candidate() { CandidateBoot? || ValidatingCandidate? }
    /** The phases from which a new upload may start. */
    predicate AcceptsUpload() { Idle? || Failed? || Confirmed? || RolledBack? }
  }

  type Digest = Bytes

  // ---------------------------------------------------------------- durable state

  datatype Image = Image(state: ImageState, data: Bytes)

  datatype Record = Record(
    generation: nat, operationId: nat, phase: Phase, target: Option<Slot>,
    expectedLength: nat, bytesReceived: nat, expectedSha: Digest, calculatedSha: Digest,
    calculatedAvailable: bool, validated: bool, intent: bool, activated: bool)

  /** The two slots as the running firmware sees them: `current` is the image in
      the running slot, `spare` the image in the other one. Flash, otadata and
      the record store survive a power cut; `writer`, `hasher`, `uptime` and
      `powered` do not. `bootable` is the image check of the bootloader. */
  datatype Device = Device(
    record: Option<Record>, counter: nat,
    running: Slot, boot: Slot, current: Image, spare: Image, lastInvalid: Option<Slot>, slotSize: nat,
    writer: bool, hasher: Option<Bytes>, uptime: nat, powered: bool, bootable: Bytes -> bool)
  {
    function At(s: Slot): Image { if s == running then current else spare }
    function Inactive(): Slot { running.Other() }
    function NowMs(): nat { uptime % TWO_32 }

    function Forget(s: Slot): Option<Slot> { if lastInvalid == Some(s) then None else lastInvalid }

    /** otadata: select a slot for the next boot as a new image. */
    function SelectCurrent(): Device {
      this.(current := current.(state := NewImage), boot := running, lastInvalid := Forget(running))
    }

    function SelectSpare(): Device {
      this.(spare := spare.(state := NewImage), boot := Inactive(), lastInvalid := Forget(Inactive()))
    }

    function MarkCurrent(st: ImageState): Device { this.(current := current.(state := st)) }

    /** The running image is given up and the other slot runs again. */
    function FallBack(st: ImageState): Device {
      this.(current := spare, spare := current.(state := st), lastInvalid := Some(running),
            boot := Inactive(), running := Inactive())
    }

    /** A reset: the bootloader runs the selected slot. A new image becomes
        pending; an image that was still pending is aborted and the other slot
        runs instead. */
    function Reboot(): Device {
      var d := this.(writer := false, hasher := None, uptime := 0, powered := true);
      var e := if boot == running then d else d.(running := boot, current := spare, spare := current);
      match e.current.state
      case NewImage => e.MarkCurrent(PendingVerify)
      case PendingVerify => e.FallBack(Aborted)
      case _ => e
    }
  }

  // ---------------------------------------------------------------- the manager's memory

  datatype Snapshot = Snapshot(
    generation: nat, operationId: nat, phase: Phase,
    running: Option<Slot>, boot: Option<Slot>, inactive: Option<Slot>, target: Option<Slot>,
    imageSize: nat, bytesReceived: nat, expectedSha: Digest, calculatedSha: Digest,
    calculatedAvailable: bool, validated: bool, intent: bool, activated: bool,
    rollbackAvailable: bool, runningState: ImageState, lastInvalid: Option<Slot>,
    candidateStartedMs: nat)

  const BLANK := Snapshot(0, 0, Idle, None, None, None, None, 0, 0, [], [], false, false, false, false,
                          false, Unknown, None, 0)

  predicate SamePartition(left: Option<Slot>, right: Option<Slot>) {
    left.Some? && left == right
  }

  function MakeRecord(s: Snapshot): Record {
    Record(s.generation, s.operationId, s.phase, s.target, s.imageSize, s.bytesReceived, s.expectedSha,
           s.calculatedSha, s.calculatedAvailable, s.validated, s.intent, s.activated)
  }

  function ApplyRecord(s: Snapshot, r: Record): Snapshot {
    s.(generation := r.generation, operationId := r.operationId, phase := r.phase, target := r.target,
       imageSize := r.expectedLength, bytesReceived := r.bytesReceived, expectedSha := r.expectedSha,
       calculatedSha := r.calculatedSha, calculatedAvailable := r.calculatedAvailable,
       validated := r.validated, intent := r.intent, activated := r.activated)
  }

  // ---------------------------------------------------------------- calls that may fail

  datatype Verdict = Verdict(structureValid: bool, targetCompatible: bool, projectCompatible: bool, imageSize: nat)

  /** What the environment does with one call. */
  datatype Outcome =
    | Done                     // takes effect and reports success
    | Refused                  // no effect, reports an error
    | Ambiguous                // takes effect, reports an error
    | PowerCut                 // power is lost before the effect
    | Judged(verdict: Verdict) // success of the staged-image check, with its findings
  {
    predicate Ok() { Done? || Judged? }
    predicate Takes() { Ok() || Ambiguous? }
  }

  /** The manager, the device, and what the environment does with the calls to
      come, from number `next` on; past its end every call succeeds. */
  datatype World = World(s: Snapshot, writerOpen: bool, nextProgress: nat, dev: Device, env: seq<Outcome>, next: nat)

  /** One call to the environment. Once power is lost nothing happens any more. */
  function Draw(w: World): (r: (World, Outcome))
    ensures r.0 == w.(dev := w.dev.(powered := r.0.dev.powered), next := r.0.next)
    ensures r.0.dev.powered <==> w.dev.powered && !r.1.PowerCut?
    ensures r.1.PowerCut? <==> !r.0.dev.powered
  {
    var o := if !w.dev.powered then PowerCut else if w.next < |w.env| then w.env[w.next] else Done;
    (w.(dev := w.dev.(powered := !o.PowerCut?), next := w.next + 1), o)
  }

  /** The device after a call that changed nothing but, perhaps, the power. */
  ghost predicate Untouched(before: World, after: World) {
    && after == before.(dev := before.dev.(powered := after.dev.powered), next := after.next)
    && (after.dev.powered ==> before.dev.powered)
  }

  /** A failed save has no effect. */
  function Save(w: World): (r: (World, bool))
    ensures r.1 ==> r.0 == w.(dev := w.dev.(record := Some(MakeRecord(w.s))), next := r.0.next) && w.dev.powered
    ensures !r.1 ==> Untouched(w, r.0)
  {
    var (v, o) := Draw(w);
    if o.Ok() then (v.(dev := v.dev.(record := Some(MakeRecord(w.s)))), true) else (v, false)
  }

  /** None is a store that does not answer, or a record that fails its checks. */
  function Load(w: World): (r: (World, Option<Option<Record>>))
    ensures Untouched(w, r.0)
    ensures r.1.Some? ==> r.1.value == w.dev.record && r.0.dev.powered
  {
    var (v, o) := Draw(w);
    (v, if o.Ok() then Some(v.dev.record) else None)
  }

  function ReserveGeneration(w: World, floor: nat): (r: (World, Option<nat>))
    ensures Untouched(w.(dev := w.dev.(counter := r.0.dev.counter)), r.0)
    ensures r.0.dev.counter >= w.dev.counter
    ensures r.1.Some? ==>
              floor < r.1.value <= MAX_U64 && w.dev.counter < r.1.value == r.0.dev.counter && r.0.dev.powered
  {
    var (v, o) := Draw(w);
    var next := (if v.dev.counter < floor then floor else v.dev.counter) + 1;
    if next > MAX_U64 || !o.Takes() then (v, None)
    else (v.(dev := v.dev.(counter := next)), if o.Ok() then Some(next) else None)
  }

  /** The cached description of the platform. */
  function Describe(s: Snapshot, d: Device): Snapshot {
    s.(running := Some(d.running), boot := Some(d.boot), inactive := Some(d.Inactive()),
       runningState := d.current.state, lastInvalid := d.lastInvalid, rollbackAvailable := d.spare.state.Valid?)
  }

  function RefreshPlatform(w: World): (r: (World, bool))
    ensures Untouched(if r.1 then w.(s := Describe(w.s, w.dev)) else w, r.0)
    ensures r.1 ==> r.0.dev.powered
  {
    var (v, o) := Draw(w);
    if o.Ok() then (v.(s := Describe(v.s, v.dev)), true) else (v, false)
  }

  function ShaBegin(w: World): (r: (World, bool))
    ensures Untouched(if r.1 then w.(dev := w.dev.(hasher := Some([]))) else w, r.0)
    ensures r.1 ==> r.0.dev.powered
  {
    var (v, o) := Draw(w);
    if v.dev.hasher.Some? || !o.Ok() then (v, false) else (v.(dev := v.dev.(hasher := Some([]))), true)
  }

  function ShaUpdate(w: World, chunk: Bytes): (r: (World, bool))
    ensures !r.1 ==> Untouched(w, r.0)
    ensures r.1 ==> w.dev.hasher.Some? && w.dev.powered
                    && r.0 == w.(dev := w.dev.(hasher := Some(w.dev.hasher.value + chunk)), next := r.0.next)
  {
    var (v, o) := Draw(w);
    if v.dev.hasher.None? || !o.Ok() then (v, false)
    else (v.(dev := v.dev.(hasher := Some(v.dev.hasher.value + chunk))), true)
  }

  function ShaFinish(w: World, sha: Bytes -> Digest): (r: (World, Option<Digest>))
    ensures Untouched(w.(dev := w.dev.(hasher := None)), r.0)
    ensures r.1.Some? ==> w.dev.hasher.Some? && r.1.value == sha(w.dev.hasher.value) && r.0.dev.powered
  {
    var (v, o) := Draw(w);
    (v.(dev := v.dev.(hasher := None)),
     if v.dev.hasher.Some? && o.Ok() then Some(sha(v.dev.hasher.value)) else None)
  }

  function ShaAbort(w: World): World { w.(dev := w.dev.(hasher := None)) }

  /** Opening the writer erases the slot it writes to. */
  function BeginWrite(w: World, target: Option<Slot>, size: nat): (r: (World, bool))
    ensures Untouched(w, r.0)
         || Untouched(w.(dev := w.dev.(spare := w.dev.spare.(data := []), writer := r.1)), r.0)
    ensures r.1 ==> target == Some(w.dev.Inactive()) && r.0.dev.powered && r.0.dev.writer && r.0.dev.spare.data == []
  {
    var (v, o) := Draw(w);
    if v.dev.writer || target != Some(v.dev.Inactive()) || size == 0 || size > v.dev.slotSize || !o.Takes() then
      (v, false)
    else
      (v.(dev := v.dev.(spare := v.dev.spare.(data := []), writer := o.Ok())), o.Ok())
  }

  function Write(w: World, chunk: Bytes): (r: (World, bool))
    ensures Untouched(w, r.0)
         || Untouched(w.(dev := w.dev.(spare := w.dev.spare.(data := w.dev.spare.data + chunk))), r.0)
    ensures r.1 ==> w.dev.writer && r.0.dev.powered && r.0.dev.spare.data == w.dev.spare.data + chunk
  {
    var (v, o) := Draw(w);
    if !v.dev.writer || !o.Takes() then (v, false)
    else (v.(dev := v.dev.(spare := v.dev.spare.(data := v.dev.spare.data + chunk))), o.Ok())
  }

  /** Finishing or aborting closes the writer whatever is reported. */
  function CloseWriter(w: World): (r: (World, bool))
    ensures Untouched(w.(dev := w.dev.(writer := false)), r.0)
    ensures r.1 ==> r.0.dev.powered
  {
    var (v, o) := Draw(w);
    (v.(dev := v.dev.(writer := false)), o.Ok())
  }

  function ValidateStaged(w: World, target: Option<Slot>): (r: (World, Option<Verdict>))
    ensures Untouched(w, r.0)
    ensures r.1.Some? ==> r.0.dev.powered && w.dev.bootable(w.dev.spare.data)
  {
    var (v, o) := Draw(w);
    if target != Some(v.dev.Inactive()) || !v.dev.bootable(v.dev.spare.data) then (v, None)
    else match o
      case Done => (v, Some(Verdict(true, true, true, |v.dev.spare.data|)))
      case Judged(j) => (v, Some(j))
      case _ => (v, None)
  }

  function SelectRunning(w: World): (r: (World, bool))
    ensures Untouched(w, r.0) || Untouched(w.(dev := w.dev.SelectCurrent()), r.0)
    ensures r.1 ==> Untouched(w.(dev := w.dev.SelectCurrent()), r.0) && r.0.dev.powered
  {
    var (v, o) := Draw(w);
    (if o.Takes() then v.(dev := v.dev.SelectCurrent()) else v, o.Ok())
  }

  /** Only an image that the bootloader accepts is selected. */
  function SelectInactive(w: World): (r: (World, bool))
    ensures Untouched(w, r.0)
         || (r.0.dev.powered && w.dev.bootable(w.dev.spare.data) && Untouched(w.(dev := w.dev.SelectSpare()), r.0))
    ensures r.1 ==> Untouched(w.(dev := w.dev.SelectSpare()), r.0) && r.0.dev.powered
    ensures !w.dev.bootable(w.dev.spare.data) ==> Untouched(w, r.0) && !r.1
  {
    var (v, o) := Draw(w);
    if !v.dev.bootable(v.dev.spare.data) then (v, false)
    else (if o.Takes() then v.(dev := v.dev.SelectSpare()) else v, o.Ok())
  }

  function MarkRunningValid(w: World): (r: (World, bool))
    ensures Untouched(w, r.0) || (r.0.dev.powered && Untouched(w.(dev := w.dev.MarkCurrent(Valid)), r.0))
    ensures r.1 ==> r.0.dev.current.state.Valid? && r.0.dev.powered
  {
    var (v, o) := Draw(w);
    (if o.Takes() then v.(dev := v.dev.MarkCurrent(Valid)) else v, o.Ok())
  }

  /** Selecting a slot. A running image without otadata is first selected and
      marked valid, so that it can be rolled back to. */
  function PlatformActivate(w: World, target: Slot): (World, bool) {
    if target != w.dev.Inactive() then (w, false)
    else match w.dev.current.state
      case Valid => SelectInactive(w)
      case Undefined =>
        var (w1, seeded) := SeedRunning(w);
        if !seeded then (w1, false) else SelectInactive(w1)
      case _ => (w, false)
  }

  function SeedRunning(w: World): (World, bool) {
    var (w1, selected) := SelectRunning(w);
    if !selected then (w1, false) else MarkRunningValid(w1)
  }

  function ConfirmRunning(w: World): (r: (World, bool))
    ensures Untouched(w, r.0)
         || (r.0.dev.powered && w.dev.current.state.Pending() && Untouched(w.(dev := w.dev.MarkCurrent(Valid)), r.0))
    ensures r.1 ==> r.0.dev.current.state.Valid? && r.0.dev.powered
  {
    if w.dev.current.state.Valid? then (w, w.dev.powered)
    else if !w.dev.current.state.Pending() then (w, false)
    else MarkRunningValid(w)
  }

  /** On success the station resets inside the call. */
  function RollbackAndReboot(w: World): (r: (World, bool))
    ensures !r.1 ==> Untouched(w, r.0)
    ensures r.1 ==> w.dev.spare.state.Valid? && w.dev.powered
                    && r.0 == w.(dev := w.dev.FallBack(Invalid).(powered := false), next := r.0.next)
  {
    var (v, o) := Draw(w);
    if !v.dev.spare.state.Valid? || !o.Ok() then (v, false)
    else (v.(dev := v.dev.FallBack(Invalid).(powered := false)), true)
  }
}
