/**
 * The PowerVR DRM winsys transfer-job path: creating and destroying a
 * kernel transfer context, translating transfer-command flags to the DRM
 * encoding, and building the one-job submission with its wait and signal
 * sync operations.
 *
 * The kernel and the host allocator are not modelled: every ioctl is an
 * integer status supplied by the caller (0 for success), the handle the
 * kernel writes back is a parameter, and the allocator's answer is a
 * boolean. What the driver hands to the kernel is returned, so that the
 * contracts can say exactly what the kernel sees, and whether it sees
 * anything at all.
 */
module PvrDrmJobTransfer {
  import opened CTypes
  import opened VkSync

  // ---------------------------------------------------------------------
  // DRM uapi constants (include/uapi/drm/pvr_drm.h in Linux)
  // ---------------------------------------------------------------------

  const DRM_PVR_CTX_TYPE_TRANSFER_FRAG: nat := 2
  const DRM_PVR_JOB_TYPE_TRANSFER_FRAG: nat := 3

  const DRM_PVR_SUBMIT_JOB_TRANSFER_CMD_SINGLE_CORE: bv32 := 1

  /** The low four flag bits name the kind of handle; 0 is a binary syncobj. */
  const DRM_PVR_SYNC_OP_FLAG_HANDLE_TYPE_MASK: bv32 := 0xf
  const DRM_PVR_SYNC_OP_FLAG_HANDLE_TYPE_SYNCOBJ: bv32 := 0
  /** WAIT is the absence of the SIGNAL bit. */
  const DRM_PVR_SYNC_OP_FLAG_WAIT: bv32 := 0
  const DRM_PVR_SYNC_OP_FLAG_SIGNAL: bv32 := 0x8000_0000

  // ---------------------------------------------------------------------
  // Data passed in by the caller and handed to the kernel
  // ---------------------------------------------------------------------

  /** `struct pvr_winsys_transfer_cmd_flags`. */
  datatype TransferCmdFlags = TransferCmdFlags(useSingleCore: bool)

  /** `struct pvr_winsys_transfer_cmd`: a firmware command stream and its flags. */
  datatype TransferCmd = TransferCmd(fwStream: seq<bv8>, fwStreamLen: uint32, flags: TransferCmdFlags)

  /** `struct pvr_winsys_transfer_submit_info`: `cmds` is the command array, `cmdCount` how many are used. */
  datatype TransferSubmitInfo = TransferSubmitInfo(cmdCount: nat, cmds: seq<TransferCmd>, wait: Option<Sync>)

  /** `struct drm_pvr_sync_op`. */
  datatype SyncOp = SyncOp(handle: uint32, flags: bv32, value: uint64)

  /**
   * `struct drm_pvr_job`. `cmdStream` is the buffer the job's command-stream
   * pointer designates; `syncOps` is the prefix of the sync-op array that the
   * job's object-array count covers.
   */
  datatype Job = Job(
    jobType: nat,
    cmdStream: seq<bv8>,
    cmdStreamLen: uint32,
    flags: bv32,
    contextHandle: uint32,
    syncOps: seq<SyncOp>)

  /** `struct drm_pvr_ioctl_submit_jobs_args`. */
  datatype SubmitJobsArgs = SubmitJobsArgs(jobs: seq<Job>)

  /** Winsys-level context priority (`enum pvr_winsys_ctx_priority`). */
  datatype WinsysPriority = PriorityLow | PriorityMedium | PriorityHigh

  /** `struct pvr_winsys_transfer_ctx_create_info`. */
  datatype TransferCtxCreateInfo = TransferCtxCreateInfo(priority: WinsysPriority)

  /**
   * `struct drm_pvr_ioctl_create_context_args` as the driver fills it. The
   * priority is recorded before `pvr_drm_from_winsys_priority` converts it.
   */
  datatype CreateContextArgs = CreateContextArgs(ctxType: nat, priority: WinsysPriority, vmContextHandle: uint32)

  /** `struct drm_pvr_ioctl_destroy_context_args`. */
  datatype DestroyContextArgs = DestroyContextArgs(handle: uint32)

  // ---------------------------------------------------------------------
  // Heap state: the winsys, its allocator and the driver context
  // ---------------------------------------------------------------------

  /** The host allocator (`ws->alloc`), seen through the transfer contexts it has handed out and not taken back. */
  class HostAllocator {
    var live: set<DrmTransferCtx>

    constructor ()
      ensures live == {}
    {
      live := {};
    }
  }

  /** `struct pvr_drm_winsys`, reduced to what the transfer path reads. */
  class Winsys {
    const alloc: HostAllocator
    const vmContext: uint32

    constructor (alloc: HostAllocator, vmContext: uint32)
      ensures this.alloc == alloc && this.vmContext == vmContext
    {
      this.alloc := alloc;
      this.vmContext := vmContext;
    }
  }

  /**
   * `struct pvr_drm_winsys_transfer_ctx`: the base transfer context, whose
   * only field is the owning winsys, and the kernel's context handle.
   */
  class DrmTransferCtx {
    var ws: Winsys?
    var handle: uint32

    /** A zero-filled allocation, as `vk_zalloc` returns. */
    constructor ()
      ensures ws == null && handle == 0
    {
      ws := null;
      handle := 0;
    }
  }

  // ---------------------------------------------------------------------
  // ioctl results
  // ---------------------------------------------------------------------

  /**
   * `pvr_ioctlf`: the kernel's status becomes VK_SUCCESS when it is 0 and
   * the caller-chosen error code otherwise, whatever the errno.
   */
  function IoctlResult(status: int, error: VkResult): (r: VkResult)
    requires error != Success
    ensures r == Success <==> status == 0
    ensures r != Success ==> r == error
  {
    if status == 0 then Success else error
  }

  // ---------------------------------------------------------------------
  // Context lifecycle
  // ---------------------------------------------------------------------

  /**
   * `pvr_drm_winsys_transfer_ctx_create`. `allocSucceeds` is whether
   * `vk_zalloc` returns memory, `kernelStatus` the CREATE_CONTEXT ioctl's
   * status and `kernelHandle` the handle it writes back. `ioctl` is what
   * the kernel was asked, None when the ioctl is never issued; `ctx` is
   * null exactly when no context is returned.
   */
  method TransferCtxCreate(
    ws: Winsys,
    createInfo: TransferCtxCreateInfo,
    allocSucceeds: bool,
    kernelStatus: int,
    kernelHandle: uint32)
    returns (result: VkResult, ctx: DrmTransferCtx?, ioctl: Option<CreateContextArgs>)
    modifies ws.alloc
    ensures result == Success <==> ctx != null
    ensures !allocSucceeds ==> result == ErrorOutOfHostMemory && ioctl == None
    ensures allocSucceeds ==>
              ioctl == Some(CreateContextArgs(DRM_PVR_CTX_TYPE_TRANSFER_FRAG, createInfo.priority, ws.vmContext))
    ensures allocSucceeds && kernelStatus != 0 ==> result == ErrorInitializationFailed
    ensures allocSucceeds && kernelStatus == 0 ==> result == Success
    ensures ctx == null ==> ws.alloc.live == old(ws.alloc.live)
    ensures ctx != null ==>
              && fresh(ctx) && ctx.ws == ws && ctx.handle == kernelHandle
              && ws.alloc.live == old(ws.alloc.live) + {ctx}
  {
    var args := CreateContextArgs(DRM_PVR_CTX_TYPE_TRANSFER_FRAG, createInfo.priority, ws.vmContext);
    if !allocSucceeds {
      return ErrorOutOfHostMemory, null, None;
    }
    var drmCtx := new DrmTransferCtx();
    ws.alloc.live := ws.alloc.live + {drmCtx};

    ioctl := Some(args);
    result := IoctlResult(kernelStatus, ErrorInitializationFailed);
    if result != Success {
      // err_free_ctx: give the allocation back before failing.
      ws.alloc.live := ws.alloc.live - {drmCtx};
      return result, null, ioctl;
    }

    drmCtx.ws := ws;
    drmCtx.handle := kernelHandle;
    ctx := drmCtx;
  }

  /**
   * `pvr_drm_winsys_transfer_ctx_destroy`. The DESTROY_CONTEXT ioctl's
   * status only selects a logged error; the context is freed in any case.
   */
  method TransferCtxDestroy(ctx: DrmTransferCtx, kernelStatus: int) returns (ioctl: DestroyContextArgs)
    requires ctx.ws != null && ctx in ctx.ws.alloc.live
    modifies ctx.ws.alloc
    ensures ioctl == DestroyContextArgs(ctx.handle)
    ensures ctx.ws.alloc.live == old(ctx.ws.alloc.live) - {ctx}
  {
    ioctl := DestroyContextArgs(ctx.handle);
    var logged := IoctlResult(kernelStatus, ErrorUnknown);
    ctx.ws.alloc.live := ctx.ws.alloc.live - {ctx};
  }

  /**
   * A context created and then destroyed leaves the allocator as it was,
   * whichever way each step goes. DESTROY_CONTEXT is issued exactly when a
   * context was created, and it names the handle CREATE_CONTEXT returned.
   */
  method TransferCtxCreateThenDestroy(
    ws: Winsys,
    createInfo: TransferCtxCreateInfo,
    allocSucceeds: bool,
    createStatus: int,
    kernelHandle: uint32,
    destroyStatus: int)
    returns (result: VkResult, destroyIoctl: Option<DestroyContextArgs>)
    modifies ws.alloc
    ensures result == Success <==> allocSucceeds && createStatus == 0
    ensures destroyIoctl.Some? <==> result == Success
    ensures destroyIoctl.Some? ==> destroyIoctl.value == DestroyContextArgs(kernelHandle)
    ensures ws.alloc.live == old(ws.alloc.live)
  {
    var ctx, createIoctl;
    result, ctx, createIoctl := TransferCtxCreate(ws, createInfo, allocSucceeds, createStatus, kernelHandle);
    destroyIoctl := None;
    if ctx != null {
      var args := TransferCtxDestroy(ctx, destroyStatus);
      destroyIoctl := Some(args);
    }
  }

  // ---------------------------------------------------------------------
  // Submission
  // ---------------------------------------------------------------------

  /**
   * `pvr_winsys_transfer_flags_to_drm`: the single-core bit is set exactly
   * when the command asks for one core, and no other bit is ever set.
   */
  function TransferFlagsToDrm(wsFlags: TransferCmdFlags): (flags: bv32)
    ensures flags & DRM_PVR_SUBMIT_JOB_TRANSFER_CMD_SINGLE_CORE != 0 <==> wsFlags.useSingleCore
    ensures flags & !DRM_PVR_SUBMIT_JOB_TRANSFER_CMD_SINGLE_CORE == 0
  {
    var flags: bv32 := 0;
    if wsFlags.useSingleCore then flags | DRM_PVR_SUBMIT_JOB_TRANSFER_CMD_SINGLE_CORE else flags
  }

  /** The kind of handle a sync-op flag word names. */
  function HandleType(flags: bv32): bv32 {
    flags & DRM_PVR_SYNC_OP_FLAG_HANDLE_TYPE_MASK
  }

  /** Whether a sync-op flag word asks for a signal (otherwise it is a wait). */
  predicate IsSignal(flags: bv32) {
    flags & DRM_PVR_SYNC_OP_FLAG_SIGNAL != 0
  }

  /** A flag word using no bit beyond the handle type and the SIGNAL bit. */
  predicate KnownSyncOpFlags(flags: bv32) {
    flags & !(DRM_PVR_SYNC_OP_FLAG_HANDLE_TYPE_MASK | DRM_PVR_SYNC_OP_FLAG_SIGNAL) == 0
  }

  /**
   * A sync the submit path accepts: a binary (non-timeline) sync backed by
   * a DRM syncobj, so that `vk_sync_as_drm_syncobj` does not return NULL.
   */
  predicate Submittable(sync: Option<Sync>) {
    sync.Some? ==> !IsTimeline(sync.value) && AsDrmSyncobj(sync.value).Some?
  }

  /** The sync op emitted for the wait dependency. */
  function WaitSyncOp(sync: Sync): (op: SyncOp)
    requires Submittable(Some(sync))
    ensures op.handle == sync.syncobj && op.value == 0
    ensures !IsSignal(op.flags) && HandleType(op.flags) == DRM_PVR_SYNC_OP_FLAG_HANDLE_TYPE_SYNCOBJ
    ensures KnownSyncOpFlags(op.flags)
  {
    SyncOp(
      AsDrmSyncobj(sync).value,
      DRM_PVR_SYNC_OP_FLAG_WAIT | DRM_PVR_SYNC_OP_FLAG_HANDLE_TYPE_SYNCOBJ,
      0)
  }

  /** The sync op emitted for the signal target. */
  function SignalSyncOp(sync: Sync): (op: SyncOp)
    requires Submittable(Some(sync))
    ensures op.handle == sync.syncobj && op.value == 0
    ensures IsSignal(op.flags) && HandleType(op.flags) == DRM_PVR_SYNC_OP_FLAG_HANDLE_TYPE_SYNCOBJ
    ensures KnownSyncOpFlags(op.flags)
  {
    SyncOp(
      AsDrmSyncobj(sync).value,
      DRM_PVR_SYNC_OP_FLAG_SIGNAL | DRM_PVR_SYNC_OP_FLAG_HANDLE_TYPE_SYNCOBJ,
      0)
  }

  /**
   * The sync operations a submission carries: one for the wait dependency
   * if there is one, then one for the signal target if there is one. There
   * are never more than the two that `sync_ops[2]` can hold.
   */
  function SyncOpsFor(wait: Option<Sync>, signal: Option<Sync>): (ops: seq<SyncOp>)
    requires Submittable(wait) && Submittable(signal)
    ensures |ops| == (if wait.Some? then 1 else 0) + (if signal.Some? then 1 else 0)
    ensures |ops| <= 2
    ensures wait.Some? ==> ops[0] == WaitSyncOp(wait.value)
    ensures signal.Some? ==> ops[|ops| - 1] == SignalSyncOp(signal.value)
  {
    (if wait.Some? then [WaitSyncOp(wait.value)] else [])
    + (if signal.Some? then [SignalSyncOp(signal.value)] else [])
  }

  /**
   * Every emitted op is a binary syncobj op with value 0; it is a signal
   * exactly when it is the last op and a signal target was given, and its
   * handle is the syncobj of the sync it stands for.
   */
  lemma SyncOpsRoles(wait: Option<Sync>, signal: Option<Sync>, i: int)
    requires Submittable(wait) && Submittable(signal)
    requires 0 <= i < |SyncOpsFor(wait, signal)|
    ensures var op := SyncOpsFor(wait, signal)[i];
            && op.value == 0
            && HandleType(op.flags) == DRM_PVR_SYNC_OP_FLAG_HANDLE_TYPE_SYNCOBJ
            && KnownSyncOpFlags(op.flags)
            && (IsSignal(op.flags) <==> signal.Some? && i == |SyncOpsFor(wait, signal)| - 1)
            && op.handle == (if IsSignal(op.flags) then signal.value.syncobj else wait.value.syncobj)
  {

  }

  /**
   * `pvr_drm_winsys_transfer_submit`. The command must be the only one in
   * the submission and neither sync may be a timeline. `kernelStatus` is
   * the SUBMIT_JOBS ioctl's status; `args` is what the kernel was handed: a
   * batch of exactly one TRANSFER_FRAG job for this context, running the
   * first command's stream with its translated flags, guarded by the sync
   * ops of `SyncOpsFor`. Any failure is reported as out of device memory.
   */
  method TransferSubmit(
    ctx: DrmTransferCtx,
    submitInfo: TransferSubmitInfo,
    signalSync: Option<Sync>,
    kernelStatus: int)
    returns (result: VkResult, args: SubmitJobsArgs)
    requires submitInfo.cmdCount == 1 && |submitInfo.cmds| >= 1
    requires Submittable(submitInfo.wait) && Submittable(signalSync)
    ensures |args.jobs| == 1
    ensures var cmd := submitInfo.cmds[0];
            args.jobs[0] == Job(
              DRM_PVR_JOB_TYPE_TRANSFER_FRAG,
              cmd.fwStream,
              cmd.fwStreamLen,
              TransferFlagsToDrm(cmd.flags),
              ctx.handle,
              SyncOpsFor(submitInfo.wait, signalSync))
    ensures result == (if kernelStatus == 0 then Success else ErrorOutOfDeviceMemory)
  {
    var cmd := submitInfo.cmds[0];
    var syncOps := new SyncOp[2](_ => SyncOp(0, 0, 0));
    var syncOpCount := 0;

    if submitInfo.wait.Some? {
      var sync := submitInfo.wait.value;
      syncOps[syncOpCount] := WaitSyncOp(sync);
      syncOpCount := syncOpCount + 1;
    }

    if signalSync.Some? {
      syncOps[syncOpCount] := SignalSyncOp(signalSync.value);
      syncOpCount := syncOpCount + 1;
    }

    var job := Job(
      DRM_PVR_JOB_TYPE_TRANSFER_FRAG,
      cmd.fwStream,
      cmd.fwStreamLen,
      TransferFlagsToDrm(cmd.flags),
      ctx.handle,
      syncOps[..syncOpCount]);
    args := SubmitJobsArgs([job]);
    result := IoctlResult(kernelStatus, ErrorOutOfDeviceMemory);
  }
}
