/**
 * The parts of the common Vulkan runtime that both drivers read: result
 * codes, and the `vk_sync` object with the identity of its type descriptor,
 * its capability flags and, for a DRM-syncobj-backed sync, the kernel handle
 * of the enclosing `vk_drm_syncobj`.
 */
module VkSync {
  import opened CTypes

  /** The VkResult codes this model produces (VK_SUCCESS = 0, errors negative). */
  datatype VkResult =
    | Success                    //  0
    | ErrorOutOfHostMemory       // -1
    | ErrorOutOfDeviceMemory     // -2
    | ErrorInitializationFailed  // -3
    | ErrorUnknown               // -13

  /**
   * Which `vk_sync_type` descriptor a sync points at. C compares the
   * descriptors by address; distinct constructors here stand for distinct
   * addresses. `DrmSyncobjType` is any descriptor built by the DRM-syncobj
   * helpers, `TuTimelineSyncType` is turnip's `tu_timeline_sync_type`.
   */
  datatype SyncType = DrmSyncobjType | TuTimelineSyncType | OtherSyncType(id: nat)

  /** `enum vk_sync_flags` bit for a sync with timeline (counted) semantics. */
  const VK_SYNC_IS_TIMELINE: bv32 := 1

  /**
   * A `vk_sync`. `syncobj` is the `syncobj` field of the `vk_drm_syncobj`
   * that embeds it; it is meaningful only when `syncType` is `DrmSyncobjType`.
   */
  datatype Sync = Sync(syncType: SyncType, flags: bv32, syncobj: uint32)

  predicate IsTimeline(s: Sync) {
    s.flags & VK_SYNC_IS_TIMELINE != 0
  }

  /**
   * `vk_sync_as_drm_syncobj`: the embedding DRM syncobj's handle, or None
   * (a NULL pointer) when the sync is of some other type.
   */
  function AsDrmSyncobj(s: Sync): (r: Option<uint32>)
    ensures r.Some? <==> s.syncType == DrmSyncobjType
    ensures r.Some? ==> r.value == s.syncobj
  {
    if s.syncType == DrmSyncobjType then Some(s.syncobj) else None
  }

  datatype Option<+T> = None | Some(value: T)
}
