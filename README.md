# Transfer-job submission and fence helpers, modelled in Dafny

This project models two small pieces of Mesa's Vulkan drivers that talk to
kernel DRM drivers.

* **PowerVR transfer jobs** (`pvr_drm_job_transfer.dfy`, module
  `PvrDrmJobTransfer`). It covers the winsys transfer context's lifecycle:
  allocate, issue CREATE_CONTEXT, and free on failure; destroy issues
  DESTROY_CONTEXT and always frees. It covers the translation of
  transfer-command flags to the DRM flag word. It also covers the submit
  path. That path fills the two-entry `sync_ops` array in place: first an
  optional WAIT op, then an optional SIGNAL op. It then wraps one
  TRANSFER_FRAG job in a batch of one and reports any kernel failure as
  `VK_ERROR_OUT_OF_DEVICE_MEMORY`.
* **Turnip (Freedreno) kernel helpers** (`tu_knl_drm.dfy`, module
  `TuKnlDrm`):
  * `fence_before`, the wrap-around comparison of 32-bit fence sequence
    numbers. It is related to serial-number arithmetic as defined in
    section 3.2 of RFC 1982.
  * `get_abs_timeout`, which adds a relative timeout to a clock reading.
  * The type-tag check that guards the downcast to `tu_timeline_sync`.

Two supporting modules hold what both drivers share:

* `c_types.dfy` (`CTypes`) has the fixed-width C integer types. It also has
  the C conversions used here: unsigned wrap-around, and the
  two's-complement reading of an unsigned value stored into a signed
  object.
* `vk_sync.dfy` (`VkSync`) has the VkResult codes and the `vk_sync` value:
  its type descriptor, its `VK_SYNC_IS_TIMELINE` flag, and its DRM syncobj
  handle.

Outside behaviour is passed in as parameters:

* **Kernel ioctls.** Each ioctl's status is an integer parameter, 0 meaning
  success. The context handle the kernel writes back is also a parameter.
  The arguments the driver hands to the kernel are returned as
  out-parameters, so a contract can say what the kernel was asked. For
  create, `None` means the ioctl was never issued.
* **Host allocator.** The allocator's answer is a boolean parameter. The
  allocator itself is a class whose `live` set holds the transfer contexts
  it has handed out and not yet taken back.
* **Clock.** The `CLOCK_MONOTONIC` reading is a parameter of
  `GetAbsTimeout`.

The DRM constants come from Linux's `include/uapi/drm/pvr_drm.h`, which is
not part of this model:

* `DRM_PVR_SYNC_OP_FLAG_WAIT` is 0.
* `DRM_PVR_SYNC_OP_FLAG_SIGNAL` is bit 31.
* `DRM_PVR_SYNC_OP_FLAG_HANDLE_TYPE_SYNCOBJ` is 0, inside the low four
  handle-type bits.
* `DRM_PVR_SUBMIT_JOB_TRANSFER_CMD_SINGLE_CORE` is bit 0.

So "a WAIT op" means the SIGNAL bit is clear.

## Model

| member | source | states |
|---|---|---|
| `PvrDrmJobTransfer.TransferFlagsToDrm` | mesa/src/imagination/vulkan/winsys/powervr/pvr_drm_job_transfer.c:115-124 | The single-core bit is set exactly when `use_single_core` is, and no other bit of the DRM flag word is ever set. |
| `PvrDrmJobTransfer.IoctlResult` | mesa/src/imagination/vulkan/winsys/powervr/pvr_drm_job_transfer.c:175-180 | A kernel status maps to VK_SUCCESS exactly when it is 0; any nonzero status, whatever the errno, maps to the one error code the call site chose. |
| `PvrDrmJobTransfer.WaitSyncOp` | mesa/src/imagination/vulkan/winsys/powervr/pvr_drm_job_transfer.c:153-163 | The wait op carries the wait sync's syncobj handle and value 0. Its handle type is SYNCOBJ, its SIGNAL bit is clear (WAIT), and it uses no other flag bit. |
| `PvrDrmJobTransfer.SignalSyncOp` | mesa/src/imagination/vulkan/winsys/powervr/pvr_drm_job_transfer.c:165-173 | The signal op carries the signal sync's syncobj handle and value 0. Its handle type is SYNCOBJ, its SIGNAL bit is set, and it uses no other flag bit. |
| `PvrDrmJobTransfer.SyncOpsFor` | mesa/src/imagination/vulkan/winsys/powervr/pvr_drm_job_transfer.c:136-173 | The op count is (wait present) + (signal present), so at most 2. The wait op, when present, is at index 0. The signal op, when present, is last: index 1 with a wait, index 0 without. |
| `PvrDrmJobTransfer.SyncOpsRoles` | mesa/src/imagination/vulkan/winsys/powervr/pvr_drm_job_transfer.c:153-173 | Every emitted op has value 0 and handle type SYNCOBJ. An op is a SIGNAL exactly when a signal target was given and the op is the last one; otherwise it is a WAIT. Its handle is the syncobj of the sync it came from. |
| `PvrDrmJobTransfer.TransferSubmit` | mesa/src/imagination/vulkan/winsys/powervr/pvr_drm_job_transfer.c:126-181 | Requires `cmd_count == 1`, and that neither sync is a timeline and both are DRM syncobjs. Fills `sync_ops[2]` in place with a running count. The kernel receives a batch of exactly one job: type TRANSFER_FRAG, the first command's stream and `fw_stream_len`, the translated flags, the context's stored handle, and the sync ops of `SyncOpsFor`. The result is VK_SUCCESS on kernel success and VK_ERROR_OUT_OF_DEVICE_MEMORY on any failure. |
| `PvrDrmJobTransfer.TransferCtxCreate` | mesa/src/imagination/vulkan/winsys/powervr/pvr_drm_job_transfer.c:51-95 | If allocation fails, the result is OUT_OF_HOST_MEMORY and no ioctl is issued. Otherwise CREATE_CONTEXT is issued with type TRANSFER_FRAG, the requested priority and the winsys VM context. If it fails, the result is INITIALIZATION_FAILED and the allocation is freed. If it succeeds, a fresh context is returned that holds the winsys and the kernel's handle, and it is the only new live allocation. A context is returned exactly when the result is VK_SUCCESS. |
| `PvrDrmJobTransfer.TransferCtxDestroy` | mesa/src/imagination/vulkan/winsys/powervr/pvr_drm_job_transfer.c:97-113 | Issues DESTROY_CONTEXT with the context's stored handle. It frees the context whatever the kernel answers. |
| `PvrDrmJobTransfer.TransferCtxCreateThenDestroy` | mesa/src/imagination/vulkan/winsys/powervr/pvr_drm_job_transfer.c:51-113 | Creating a context and then destroying it, if one was created, leaves the allocator's live set exactly as it was, on every path. Success is reported exactly when both allocation and the create ioctl succeed. DESTROY_CONTEXT is issued exactly when a context was created, and it carries the handle the kernel returned from CREATE_CONTEXT. |
| `TuKnlDrm.ForwardDistance` | mesa/src/freedreno/vulkan/tu_knl_drm.h:46-50 | The forward distance d from a to b on the 32-bit ring satisfies (a + d) mod 2^32 == b. It is 0 exactly when a == b. |
| `TuKnlDrm.FenceBefore` | mesa/src/freedreno/vulkan/tu_knl_drm.h:46-50 | `(int32_t)(a - b) < 0` holds exactly when b is between 1 and 2^31 steps ahead of a, modulo 2^32. |
| `TuKnlDrm.FenceBeforeIrreflexive` | mesa/src/freedreno/vulkan/tu_knl_drm.h:46-50 | `fence_before(a, a)` is false. |
| `TuKnlDrm.FenceBeforeLater` | mesa/src/freedreno/vulkan/tu_knl_drm.h:49 | For 1 <= k <= 2^31, `fence_before(a, (a + k) mod 2^32)` holds, across the wrap too. |
| `TuKnlDrm.FenceNotBeforeEarlier` | mesa/src/freedreno/vulkan/tu_knl_drm.h:49 | For 0 <= k < 2^31, `fence_before((a + k) mod 2^32, a)` is false. |
| `TuKnlDrm.FenceBeforeIsLessWhenClose` | mesa/src/freedreno/vulkan/tu_knl_drm.h:49 | When a and b differ by less than 2^31, `fence_before(a, b)` is `a < b`. |
| `TuKnlDrm.FenceBeforeHalfwayBothWays` | mesa/src/freedreno/vulkan/tu_knl_drm.h:49 | At distance exactly 2^31, both `fence_before(a, b)` and `fence_before(b, a)` hold, so the relation is not antisymmetric there. |
| `TuKnlDrm.FenceBeforeTrichotomy` | mesa/src/freedreno/vulkan/tu_knl_drm.h:49 | For distinct a and b not 2^31 apart, exactly one of `fence_before(a, b)` and `fence_before(b, a)` holds. |
| `TuKnlDrm.FenceBeforeIsRfc1982` | mesa/src/freedreno/vulkan/tu_knl_drm.h:49 | Away from distance 2^31, `fence_before` agrees with the serial-number "less than" of RFC 1982 section 3.2. At distance 2^31 it answers true both ways, where that formula answers false both ways. |
| `TuKnlDrm.ConsecutiveFenceOffset` | mesa/src/freedreno/vulkan/tu_knl_drm.h:46-50 | In a run of fence numbers where each is the previous plus one in uint32_t, the j-th lies j steps after the first, modulo 2^32. |
| `TuKnlDrm.FenceBeforeOrdersRun` | mesa/src/freedreno/vulkan/tu_knl_drm.h:46-50 | Within any run of at most 2^31 consecutively issued fence numbers, `fence_before` holds exactly when the first fence was issued earlier, even when the run wraps past 2^32 - 1. The bound is tight; see `FenceBeforeHalfwayBothWays`. |
| `TuKnlDrm.GetAbsTimeout` | mesa/src/freedreno/vulkan/tu_knl_drm.h:37-44 | Unless the seconds overflow int64, `tv_sec` is the clock's seconds plus the whole seconds of `ns`. Given a clock nanosecond field in [0, 10^9), `tv_nsec` is that field plus `ns mod 10^9`, in [0, 2*10^9), with no wrap. |
| `TuKnlDrm.GetAbsTimeoutPreservesTotal` | mesa/src/freedreno/vulkan/tu_knl_drm.h:42-43 | For a valid clock reading and no int64 overflow of the seconds, `tv_sec*10^9 + tv_nsec == t.tv_sec*10^9 + t.tv_nsec + ns`. |
| `TuKnlDrm.GetAbsTimeoutNotNormalised` | mesa/src/freedreno/vulkan/tu_knl_drm.h:43 | No carry goes from the nanoseconds into `tv_sec`. A reading of 0.999999999 s plus 1 ns gives `tv_nsec == 10^9`, not normalised. |
| `TuKnlDrm.IsTuTimelineSync` | mesa/src/freedreno/vulkan/tu_knl_drm.h:54-58 | The sync's type descriptor is `tu_timeline_sync_type`; such a sync is never a DRM syncobj. |
| `TuKnlDrm.ToTuTimelineSync` | mesa/src/freedreno/vulkan/tu_knl_drm.h:60-65 | The downcast requires `vk_sync_is_tu_timeline_sync`, i.e. the type tag is `tu_timeline_sync_type`. The object it yields embeds the very sync it came from. |

## Left out

- The kernel side of every ioctl (context creation, destruction and job scheduling) is an input status and handle. The asynchronous signalling of the signal sync after the job completes is not modelled. Neither is concurrent submission through a shared context.
- `vk_zalloc` and `vk_free` are reduced to a success flag and the allocator's `live` set. Memory contents and sizes are not modelled.
- `pvr_drm_from_winsys_priority` is not part of this model. The create arguments record the winsys priority before that conversion.
- `pvr_ioctlf` is not part of this model. It is taken to return VK_SUCCESS for a zero status and the error code its caller names for any other status, with no remapping that depends on the errno (`PvrDrmJobTransfer.IoctlResult`).
- `pvr_ioctlf`'s error logging (`vk_errorf`, the message strings) is not modelled. On destroy, the `VK_ERROR_UNKNOWN` it selects is computed and discarded, as in the source.
- The unused `dev_info` parameter of submit is dropped.
- The command-stream pointer is modelled as the byte sequence it designates. The address itself is not modelled.
- `container_of` pointer arithmetic is replaced by a class holding the base's only field (the winsys) beside the kernel handle. `tu_timeline_sync` is reduced to the `vk_sync` it embeds.
- `clock_gettime` is not modelled; its reading is a parameter.
- The functions that are only declared in `tu_knl_drm.h` have no bodies to model: `tu_allocate_userspace_iova`, `tu_drm_export_dmabuf`, `tu_drm_bo_finish`, the `msm_submit_*` functions and `tu_syncobj_from_vk_sync`.
- `TuKnlDrm.GetAbsTimeout`: the seconds field is stated exactly only when it fits in int64. Past that, the model computes the C wrap-around, and no contract describes it.
