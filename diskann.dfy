/** Getting a DiskANN index ready before a search
    (operation.cc:1209-1221, 1339-1500): the regions are built, the
    outstanding regions are polled until every one reports it is built,
    then the index is loaded and they are polled again until every one
    is loaded. Each remote call is a parameter: its status, and for a poll
    the region states it reports. A wait whose polls run out before every
    region is done is reported as still waiting (the source polls on). */
module DiskAnn {
  import opened Common

  datatype RegionState = Inittialized | Building | Builded | BuildFailed | Loading | Loaded | LoadFailed | NoData

  datatype RegionReport = RegionReport(regionId: int, state: RegionState)

  datatype Phase = BuildPhase | LoadPhase

  /** The state that keeps a region outstanding in a phase. */
  function InProgress(phase: Phase): RegionState
  {
    if phase == BuildPhase then Building else Loading
  }

  /** The state that aborts a phase. */
  function FailedState(phase: Phase): RegionState
  {
    if phase == BuildPhase then RegionState.BuildFailed else RegionState.LoadFailed
  }

  /** The states that take a region off the outstanding list. */
  predicate IsDone(phase: Phase, s: RegionState)
  {
    s == NoData || s == (if phase == BuildPhase then Builded else Loaded)
  }

  // ---- One poll ----

  /** `erase(find(…))`: the first occurrence of `x` removed, if any. */
  function RemoveFirst(s: seq<int>, x: int): (t: seq<int>)
  {
    if s == [] then [] else if s[0] == x then s[1..] else [s[0]] + RemoveFirst(s[1..], x)
  }

  lemma {:induction false} RemoveFirstMultiset(s: seq<int>, x: int)
    ensures multiset(RemoveFirst(s, x)) == multiset(s) - multiset{x}
  {
    if s != [] {
      assert s == [s[0]] + s[1..];
      if s[0] != x {
        RemoveFirstMultiset(s[1..], x);
      }
    }
  }

  lemma {:induction false} RemoveFirstAt(s: seq<int>, x: int, i: nat)
    requires i <= |s| && forall k :: 0 <= k < i ==> s[k] != x
    ensures i < |s| && s[i] == x ==> RemoveFirst(s, x) == s[..i] + s[i + 1..]
    ensures i == |s| ==> RemoveFirst(s, x) == s
  {
    if i > 0 {
      var tail := s[1..];
      assert s[0] != x;
      assert forall k :: 0 <= k < i - 1 ==> tail[k] == s[k + 1];
      RemoveFirstAt(tail, x, i - 1);
      if i < |s| {
        assert s[..i] == [s[0]] + tail[..i - 1];
        assert tail[i..] == s[i + 1..];
      } else {
        assert [s[0]] + tail == s;
      }
    }
  }

  /** What one poll's reports do to the outstanding list: a region in
      progress stays, a failed one aborts the phase (`None`), a done one
      is taken off once, and a report of another state, or of a region
      not on the list, changes nothing. */
  function PollStep(outstanding: seq<int>, reports: seq<RegionReport>, phase: Phase): Option<seq<int>>
  {
    if reports == [] then Some(outstanding)
    else
      match PollStep(outstanding, reports[..|reports| - 1], phase)
      case None => None
      case Some(o) =>
        var r := reports[|reports| - 1];
        if r.state == InProgress(phase) then Some(o)
        else if r.state == FailedState(phase) then None
        else if IsDone(phase, r.state) then Some(RemoveFirst(o, r.regionId))
        else Some(o)
  }

  /** The regions a poll reports done, in report order. */
  function DoneIds(reports: seq<RegionReport>, phase: Phase): seq<int>
  {
    if reports == [] then []
    else
      var r := reports[|reports| - 1];
      DoneIds(reports[..|reports| - 1], phase) + (if IsDone(phase, r.state) then [r.regionId] else [])
  }

  predicate NoFailure(reports: seq<RegionReport>, phase: Phase)
  {
    forall k :: 0 <= k < |reports| ==> reports[k].state != FailedState(phase)
  }

  /** A poll aborts exactly when one of its reports is a failure. */
  lemma {:induction false} PollStepAborts(outstanding: seq<int>, reports: seq<RegionReport>, phase: Phase)
    ensures PollStep(outstanding, reports, phase).Some? <==> NoFailure(reports, phase)
  {
    if reports != [] {
      var init := reports[..|reports| - 1];
      PollStepAborts(outstanding, init, phase);
      assert forall k :: 0 <= k < |init| ==> init[k] == reports[k];
    }
  }

  /** Otherwise the outstanding regions left are those listed minus those
      reported done, counted as multisets. */
  lemma {:induction false} PollStepLeaves(outstanding: seq<int>, reports: seq<RegionReport>, phase: Phase)
    requires PollStep(outstanding, reports, phase).Some?
    ensures multiset(PollStep(outstanding, reports, phase).value) ==
            multiset(outstanding) - multiset(DoneIds(reports, phase))
  {
    if reports != [] {
      var init, r := reports[..|reports| - 1], reports[|reports| - 1];
      var p := PollStep(outstanding, init, phase);
      PollStepLeaves(outstanding, init, phase);
      if IsDone(phase, r.state) && r.state != InProgress(phase) && r.state != FailedState(phase) {
        RemoveFirstMultiset(p.value, r.regionId);
        DiffTwice(multiset(outstanding), multiset(DoneIds(init, phase)), r.regionId);
      }
    }
  }

  lemma DiffTwice(a: multiset<int>, d: multiset<int>, x: int)
    ensures (a - d) - multiset{x} == a - (d + multiset{x})
  {
  }

  lemma PollStepSticky(outstanding: seq<int>, reports: seq<RegionReport>, k: nat, phase: Phase)
    requires k <= |reports| && PollStep(outstanding, reports[..k], phase).None?
    ensures PollStep(outstanding, reports, phase).None?
  {
    PollStepAborts(outstanding, reports[..k], phase);
    PollStepAborts(outstanding, reports, phase);
    var j :| 0 <= j < k && reports[..k][j].state == FailedState(phase);
    assert reports[j] == reports[..k][j];
  }

  /** `std::find` and `erase` on the outstanding list. */
  method Erase(s: seq<int>, x: int) returns (t: seq<int>)
    ensures t == RemoveFirst(s, x)
  {
    var i := 0;
    while i < |s| && s[i] != x
      invariant 0 <= i <= |s| && forall k :: 0 <= k < i ==> s[k] != x
    {
      i := i + 1;
    }
    RemoveFirstAt(s, x, i);
    if i < |s| {
      t := s[..i] + s[i + 1..];
    } else {
      t := s;
    }
  }

  /** The loop over one poll's reports: `ok` is false when it returns on a
      failed region. */
  method ApplyReports(outstanding: seq<int>, reports: seq<RegionReport>, phase: Phase)
    returns (ok: bool, rest: seq<int>)
    ensures ok == PollStep(outstanding, reports, phase).Some?
    ensures ok ==> rest == PollStep(outstanding, reports, phase).value
  {
    rest := outstanding;
    var k := 0;
    while k < |reports|
      invariant 0 <= k <= |reports|
      invariant PollStep(outstanding, reports[..k], phase) == Some(rest)
    {
      var r := reports[k];
      assert reports[..k + 1][..k] == reports[..k];
      if r.state == InProgress(phase) {
        k := k + 1;
        continue;
      }
      if r.state == FailedState(phase) {
        PollStepSticky(outstanding, reports, k + 1, phase);
        return false, rest;
      }
      if IsDone(phase, r.state) {
        rest := Erase(rest, r.regionId);
      }
      k := k + 1;
    }
    assert reports[..k] == reports;
    ok := true;
  }

  // ---- Waiting for a phase ----

  /** One `StatusByRegionId` answer. */
  datatype Poll = Poll(status: Status, reports: seq<RegionReport>)

  datatype WaitOutcome = Ready | Aborted | StillWaiting

  /** How a wait ends, after how many polls, and with which regions still
      outstanding. */
  datatype Waited = Waited(outcome: WaitOutcome, used: nat, left: seq<int>)

  /** The wait loop of a phase: poll, abort on a failed call or a failed
      region, stop once nothing is outstanding. The list is tested only
      after a poll, so an empty list still costs one poll. */
  function Wait(outstanding: seq<int>, polls: seq<Poll>, phase: Phase): (w: Waited)
    ensures w.used <= |polls|
    decreases |polls|
  {
    if polls == [] then Waited(StillWaiting, 0, outstanding)
    else if !polls[0].status.IsOk() then Waited(Aborted, 1, outstanding)
    else
      match PollStep(outstanding, polls[0].reports, phase)
      case None => Waited(Aborted, 1, outstanding)
      case Some(rest) =>
        if rest == [] then Waited(Ready, 1, [])
        else
          var w := Wait(rest, polls[1..], phase);
          Waited(w.outcome, w.used + 1, w.left)
  }

  /** The regions reported done over a run of polls. */
  function AllDone(polls: seq<Poll>, phase: Phase): seq<int>
  {
    if polls == [] then [] else DoneIds(polls[0].reports, phase) + AllDone(polls[1..], phase)
  }

  /** A phase is ready only when every listed region was reported done,
      as often as it is listed. */
  lemma {:induction false} WaitReady(outstanding: seq<int>, polls: seq<Poll>, phase: Phase)
    requires Wait(outstanding, polls, phase).outcome == Ready
    ensures multiset(outstanding) <= multiset(AllDone(polls[..Wait(outstanding, polls, phase).used], phase))
    decreases |polls|
  {
    var p := polls[0];
    var rest := PollStep(outstanding, p.reports, phase).value;
    PollStepLeaves(outstanding, p.reports, phase);
    var used := Wait(outstanding, polls, phase).used;
    AllDoneFirst(polls, used, phase);
    var d := DoneIds(p.reports, phase);
    var e := AllDone(polls[1..][..used - 1], phase);
    if rest != [] {
      WaitReady(rest, polls[1..], phase);
    }
    assert multiset(rest) <= multiset(e);
    CoveredByDone(multiset(outstanding), multiset(d), multiset(e));
  }

  lemma AllDoneFirst(polls: seq<Poll>, n: nat, phase: Phase)
    requires 0 < n <= |polls|
    ensures AllDone(polls[..n], phase) == DoneIds(polls[0].reports, phase) + AllDone(polls[1..][..n - 1], phase)
  {
    assert polls[..n][1..] == polls[1..][..n - 1];
  }

  /** What is left after taking `d` off `a` is covered by `e`: then `a` is
      covered by `d` and `e` together. */
  lemma CoveredByDone(a: multiset<int>, d: multiset<int>, e: multiset<int>)
    requires a - d <= e
    ensures a <= d + e
  {
    forall x | x in a
      ensures a[x] <= (d + e)[x]
    {
      assert (a - d)[x] <= e[x];
    }
  }

  /** The regions left outstanding are always among those listed. */
  lemma {:induction false} WaitLeaves(outstanding: seq<int>, polls: seq<Poll>, phase: Phase)
    ensures multiset(Wait(outstanding, polls, phase).left) <= multiset(outstanding)
    decreases |polls|
  {
    if polls != [] && polls[0].status.IsOk() {
      var step := PollStep(outstanding, polls[0].reports, phase);
      if step.Some? && step.value != [] {
        PollStepLeaves(outstanding, polls[0].reports, phase);
        WaitLeaves(step.value, polls[1..], phase);
      }
    }
  }

  /** A wait aborts on its last poll, with a failed call or a failed
      region; a wait still waiting has used every poll with regions left. */
  lemma {:induction false} WaitEnds(outstanding: seq<int>, polls: seq<Poll>, phase: Phase)
    ensures var w := Wait(outstanding, polls, phase);
            && (w.outcome == StillWaiting ==> w.used == |polls| && (polls != [] ==> w.left != []))
            && (w.outcome == Aborted ==>
                  w.used > 0 && (!polls[w.used - 1].status.IsOk() || !NoFailure(polls[w.used - 1].reports, phase)))
    decreases |polls|
  {
    if polls != [] && polls[0].status.IsOk() {
      PollStepAborts(outstanding, polls[0].reports, phase);
      var step := PollStep(outstanding, polls[0].reports, phase);
      if step.Some? && step.value != [] {
        var tail := polls[1..];
        WaitEnds(step.value, tail, phase);
        var w' := Wait(step.value, tail, phase);
        if w'.outcome == Aborted {
          assert polls[w'.used] == tail[w'.used - 1];
        }
      }
    }
  }

  /** The wait loop of a phase, on the outstanding list in place. */
  method WaitPhase(regionIds: seq<int>, polls: seq<Poll>, phase: Phase) returns (w: Waited)
    ensures w == Wait(regionIds, polls, phase)
  {
    var outstanding := regionIds;
    var k := 0;
    while true
      invariant 0 <= k <= |polls|
      invariant var v := Wait(outstanding, polls[k..], phase);
                Wait(regionIds, polls, phase) == Waited(v.outcome, v.used + k, v.left)
      decreases |polls| - k
    {
      if k == |polls| {
        return Waited(StillWaiting, k, outstanding);
      }
      var poll := polls[k];
      if !poll.status.IsOk() {
        return Waited(Aborted, k + 1, outstanding);
      }
      var ok, rest := ApplyReports(outstanding, poll.reports, phase);
      if !ok {
        return Waited(Aborted, k + 1, outstanding);
      }
      if rest == [] {
        return Waited(Ready, k + 1, []);
      }
      assert polls[k..][1..] == polls[k + 1..];
      outstanding := rest;
      k := k + 1;
    }
  }

  // ---- The whole preparation ----

  /** The remote answers a preparation gets: creating the vector client,
      the index status (its region list), the build call, the build polls,
      the load call and the load polls. */
  datatype Answers = Answers(newClient: Status, indexStatus: Status, regions: seq<RegionReport>,
                             build: Status, buildPolls: seq<Poll>, load: Status, loadPolls: seq<Poll>)

  datatype Stage = NewClientStage | IndexStatusStage | BuildStage | BuildWaitStage | LoadStage | LoadWaitStage

  datatype Prepared = Done | AbortedAt(stage: Stage) | WaitingAt(stage: Stage)

  function RegionIds(regions: seq<RegionReport>): (ids: seq<int>)
    ensures |ids| == |regions|
  {
    if regions == [] then [] else RegionIds(regions[..|regions| - 1]) + [regions[|regions| - 1].regionId]
  }

  /** `PrepareForDiskANNBeforeVectorSearch` on the answers `a`. The build
      call aborts only with a build failure and the load call only with a
      load failure; any other error of theirs is ignored. */
  function Prepare(a: Answers): Prepared
  {
    var ids := RegionIds(a.regions);
    if !a.newClient.IsOk() then AbortedAt(NewClientStage)
    else if !a.indexStatus.IsOk() then AbortedAt(IndexStatusStage)
    else if a.build == Status.BuildFailed then AbortedAt(BuildStage)
    else
      var b := Wait(ids, a.buildPolls, BuildPhase);
      if b.outcome == Aborted then AbortedAt(BuildWaitStage)
      else if b.outcome == StillWaiting then WaitingAt(BuildWaitStage)
      else if a.load == Status.LoadFailed then AbortedAt(LoadStage)
      else
        var l := Wait(ids, a.loadPolls, LoadPhase);
        if l.outcome == Aborted then AbortedAt(LoadWaitStage)
        else if l.outcome == StillWaiting then WaitingAt(LoadWaitStage)
        else Done
  }

  /** The step sequence, with the load call recorded: it is made only once
      the build wait has emptied the outstanding list. */
  method PrepareForDiskAnn(a: Answers) returns (r: Prepared, loadCalled: bool)
    ensures r == Prepare(a)
    ensures loadCalled ==> Wait(RegionIds(a.regions), a.buildPolls, BuildPhase) == Waited(Ready, Wait(RegionIds(a.regions), a.buildPolls, BuildPhase).used, [])
    ensures loadCalled <==> a.newClient.IsOk() && a.indexStatus.IsOk() && a.build != Status.BuildFailed &&
                            Wait(RegionIds(a.regions), a.buildPolls, BuildPhase).outcome == Ready
  {
    loadCalled := false;
    if !a.newClient.IsOk() {
      return AbortedAt(NewClientStage), false;
    }
    if !a.indexStatus.IsOk() {
      return AbortedAt(IndexStatusStage), false;
    }
    var ids := RegionIds(a.regions);
    if a.build == Status.BuildFailed {
      return AbortedAt(BuildStage), false;
    }
    var b := WaitPhase(ids, a.buildPolls, BuildPhase);
    if b.outcome == Aborted {
      return AbortedAt(BuildWaitStage), false;
    }
    if b.outcome == StillWaiting {
      return WaitingAt(BuildWaitStage), false;
    }
    WaitReadyEmpty(ids, a.buildPolls, BuildPhase);
    loadCalled := true;
    if a.load == Status.LoadFailed {
      return AbortedAt(LoadStage), true;
    }
    var l := WaitPhase(ids, a.loadPolls, LoadPhase);
    if l.outcome == Aborted {
      return AbortedAt(LoadWaitStage), true;
    }
    if l.outcome == StillWaiting {
      return WaitingAt(LoadWaitStage), true;
    }
    r := Done;
  }

  lemma {:induction false} WaitReadyEmpty(outstanding: seq<int>, polls: seq<Poll>, phase: Phase)
    ensures Wait(outstanding, polls, phase).outcome == Ready ==> Wait(outstanding, polls, phase).left == []
    decreases |polls|
  {
    if polls != [] && polls[0].status.IsOk() {
      var step := PollStep(outstanding, polls[0].reports, phase);
      if step.Some? && step.value != [] {
        WaitReadyEmpty(step.value, polls[1..], phase);
      }
    }
  }

  /** A finished preparation had every region of the index reported built,
      and then every one reported loaded. */
  lemma PreparedMeansBuiltAndLoaded(a: Answers)
    requires Prepare(a) == Done
    ensures var ids := RegionIds(a.regions);
            var b := Wait(ids, a.buildPolls, BuildPhase);
            var l := Wait(ids, a.loadPolls, LoadPhase);
            && multiset(ids) <= multiset(AllDone(a.buildPolls[..b.used], BuildPhase))
            && multiset(ids) <= multiset(AllDone(a.loadPolls[..l.used], LoadPhase))
  {
    var ids := RegionIds(a.regions);
    WaitReady(ids, a.buildPolls, BuildPhase);
    WaitReady(ids, a.loadPolls, LoadPhase);
  }

  // ---- The once-only gate (ExecuteManualData) ----

  /** `already_prepare_for_diskann_`: the preparation runs before the first
      DiskANN search and not again once it succeeded; a failed preparation
      ends the process. The lock around it is left out. */
  class PrepareGate {
    var alreadyPrepared: bool

    constructor()
      ensures !alreadyPrepared
    {
      alreadyPrepared := false;
    }

    /** Before a dataset search: `prepared` is the outcome the preparation
        would have; `ran` says whether it was run, `proceed` whether the
        search goes on (false where the source exits). */
    method BeforeSearch(isDiskAnn: bool, prepared: bool) returns (ran: bool, proceed: bool)
      modifies this
      ensures ran <==> isDiskAnn && !old(alreadyPrepared)
      ensures proceed <==> !ran || prepared
      ensures alreadyPrepared <==> old(alreadyPrepared) || (ran && prepared)
    {
      ran, proceed := false, true;
      if isDiskAnn && !alreadyPrepared {
        ran := true;
        if !prepared {
          proceed := false;
          return;
        }
        alreadyPrepared := true;
      }
    }
  }
}
