/** The shared cache of system samples: the last full snapshot, the last
    quick realtime sample, and when and how the last sample was taken. A
    full snapshot refreshes the realtime view; a realtime sample refreshes
    the metrics of the cached snapshot. */
module Runtime {
  import opened Wrappers
  import opened Contracts

  /** A snapshot marked with how and when it was sampled. */
  function StampSnapshot(s: SystemSnapshot, mode: string, nowMs: nat, isStale: bool): SystemSnapshot {
    s.(sampleMode := Some(mode), sampledAtMs := Some(nowMs), isStale := Some(isStale))
  }

  /** A realtime sample marked with how and when it was sampled. */
  function StampRealtime(r: SystemRealtimeSnapshot, mode: string, nowMs: nat, isStale: bool): SystemRealtimeSnapshot {
    r.(sampleMode := Some(mode), sampledAtMs := Some(nowMs), isStale := Some(isStale))
  }

  /** The realtime view of a snapshot: its uptime, CPU and memory metrics
      and its sampling marks. */
  function RealtimeOf(s: SystemSnapshot): SystemRealtimeSnapshot {
    SystemRealtimeSnapshot(s.uptimeSeconds, s.cpuUsagePercent, s.totalMemoryGb, s.usedMemoryGb,
                           s.memoryUsagePercent, s.sampleMode, s.sampledAtMs, s.isStale)
  }

  /** A snapshot whose metrics and sampling marks are taken from a
      realtime sample; host, OS, CPU model, cores and disks stay. */
  function MergeRealtime(s: SystemSnapshot, r: SystemRealtimeSnapshot): SystemSnapshot {
    s.(cpuUsagePercent := r.cpuUsagePercent, totalMemoryGb := r.totalMemoryGb, usedMemoryGb := r.usedMemoryGb,
       memoryUsagePercent := r.memoryUsagePercent, uptimeSeconds := r.uptimeSeconds,
       sampleMode := r.sampleMode, sampledAtMs := r.sampledAtMs, isStale := r.isStale)
  }

  /** The fields a realtime sample never touches. */
  predicate SameMachine(a: SystemSnapshot, b: SystemSnapshot) {
    a.hostName == b.hostName && a.osName == b.osName && a.osVersion == b.osVersion
    && a.buildNumber == b.buildNumber && a.architecture == b.architecture && a.cpuModel == b.cpuModel
    && a.cpuCores == b.cpuCores && a.cpuLogicalCores == b.cpuLogicalCores && a.disks == b.disks
  }

  /** `AppRuntimeState` over its `RuntimeSampleCache`; the clock reading
      each update takes is a parameter. */
  class AppRuntimeState {
    var snapshot: Option<SystemSnapshot>
    var realtime: Option<SystemRealtimeSnapshot>
    var lastSampleMode: Option<string>
    var lastSampledAtMs: nat

    /** The two cached views agree: a cached snapshot comes with the
        realtime view of it, and every cached view carries the last
        sampling marks. */
    predicate Consistent()
      reads this
    {
      (snapshot.Some? ==> realtime == Some(RealtimeOf(snapshot.value)))
      && (realtime.Some? ==> realtime.value.sampledAtMs == Some(lastSampledAtMs)
                             && realtime.value.sampleMode == lastSampleMode)
    }

    /** The empty cache. */
    constructor ()
      ensures snapshot.None? && realtime.None? && lastSampleMode.None? && lastSampledAtMs == 0
      ensures Consistent()
    {
      snapshot := None;
      realtime := None;
      lastSampleMode := None;
      lastSampledAtMs := 0;
    }

    /** `get_snapshot`. */
    function GetSnapshot(): (s: Option<SystemSnapshot>)
      reads this
      ensures s == snapshot
    {
      snapshot
    }

    /** `get_realtime`. */
    function GetRealtime(): (r: Option<SystemRealtimeSnapshot>)
      reads this
      ensures r == realtime
    {
      realtime
    }

    /** `update_snapshot`: stamp the snapshot, store it, and store its
        realtime view. */
    method UpdateSnapshot(s: SystemSnapshot, mode: string, isStale: bool, nowMs: nat)
      modifies this
      ensures snapshot == Some(StampSnapshot(s, mode, nowMs, isStale))
      ensures realtime == Some(RealtimeOf(StampSnapshot(s, mode, nowMs, isStale)))
      ensures lastSampleMode == Some(mode) && lastSampledAtMs == nowMs
      ensures Consistent()
    {
      var stamped := s;
      stamped := stamped.(sampleMode := Some(mode));
      stamped := stamped.(sampledAtMs := Some(nowMs));
      stamped := stamped.(isStale := Some(isStale));
      var view := SystemRealtimeSnapshot(stamped.uptimeSeconds, stamped.cpuUsagePercent, stamped.totalMemoryGb,
                                         stamped.usedMemoryGb, stamped.memoryUsagePercent, stamped.sampleMode,
                                         stamped.sampledAtMs, stamped.isStale);
      lastSampleMode := Some(mode);
      // The time was set just above, so the source's fallback of 0 never applies.
      lastSampledAtMs := stamped.sampledAtMs.value;
      snapshot := Some(stamped);
      view := view.(sampledAtMs := Some(lastSampledAtMs));
      realtime := Some(view);
    }

    /** `update_realtime`: stamp the sample, store it, and copy its metrics
        into the cached snapshot if there is one. */
    method UpdateRealtime(r: SystemRealtimeSnapshot, mode: string, isStale: bool, nowMs: nat)
      modifies this
      ensures realtime == Some(StampRealtime(r, mode, nowMs, isStale))
      ensures snapshot == (if old(snapshot).Some? then Some(MergeRealtime(old(snapshot).value, StampRealtime(r, mode, nowMs, isStale)))
                           else None)
      ensures lastSampleMode == Some(mode) && lastSampledAtMs == nowMs
      ensures Consistent()
    {
      var stamped := r.(sampleMode := Some(mode), sampledAtMs := Some(nowMs), isStale := Some(isStale));
      lastSampleMode := Some(mode);
      // The time was set just above, so the source's fallback of 0 never applies.
      lastSampledAtMs := stamped.sampledAtMs.value;
      if snapshot.Some? {
        var s := snapshot.value;
        s := s.(cpuUsagePercent := stamped.cpuUsagePercent);
        s := s.(totalMemoryGb := stamped.totalMemoryGb);
        s := s.(usedMemoryGb := stamped.usedMemoryGb);
        s := s.(memoryUsagePercent := stamped.memoryUsagePercent);
        s := s.(uptimeSeconds := stamped.uptimeSeconds);
        s := s.(sampleMode := stamped.sampleMode);
        s := s.(sampledAtMs := stamped.sampledAtMs);
        s := s.(isStale := stamped.isStale);
        snapshot := Some(s);
      }
      realtime := Some(stamped);
    }
  }

  // ---------------------------------------------------------------------
  // Properties of the views

  /** Merging a snapshot's own realtime view back changes nothing, and the
      realtime view of a merged snapshot is the sample merged in. */
  lemma MergeRealtimeRoundTrip(s: SystemSnapshot, r: SystemRealtimeSnapshot)
    ensures MergeRealtime(s, RealtimeOf(s)) == s
    ensures RealtimeOf(MergeRealtime(s, r)) == r
  {
  }

  /** A realtime sample changes only the metrics and marks of the cached
      snapshot: the machine's description is left as it was. */
  lemma MergeKeepsMachine(s: SystemSnapshot, r: SystemRealtimeSnapshot)
    ensures SameMachine(MergeRealtime(s, r), s)
    ensures MergeRealtime(s, r).cpuUsagePercent == r.cpuUsagePercent
    ensures MergeRealtime(s, r).sampledAtMs == r.sampledAtMs
  {
  }

  /** After either update both views carry the new marks: the given mode,
      the clock reading, and the stale flag. */
  lemma StampsAgree(s: SystemSnapshot, mode: string, nowMs: nat, isStale: bool)
    ensures var v := RealtimeOf(StampSnapshot(s, mode, nowMs, isStale));
            v.sampleMode == Some(mode) && v.sampledAtMs == Some(nowMs) && v.isStale == Some(isStale)
            && v.uptimeSeconds == s.uptimeSeconds && v.cpuUsagePercent == s.cpuUsagePercent
            && v.totalMemoryGb == s.totalMemoryGb && v.usedMemoryGb == s.usedMemoryGb
            && v.memoryUsagePercent == s.memoryUsagePercent
  {
  }
}
