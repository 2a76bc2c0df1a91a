/**
 Properties of the fan-out executor and its entry points, stated over the
 observers of an execution trace: which hooks ran, which blogs were switched
 to, how switches and restores pair up, when the timeout mitigations were
 requested, and what was written to the `activated` site option.
 */
module LifecycleProperties {
  import opened Probe
  import opened Lifecycle

  // ---------------------------------------------------------------------
  // Observations of the pieces of a network-wide run

  /** An observer that ignores both mitigation events sees nothing in them. */
  lemma {:induction false} MitigationsUnseen<X>(h: Host, f: Event -> seq<X>)
    requires f(IgnoreAbort) == [] && f(SetTimeLimit0) == []
    ensures Collect(Mitigations(h), f) == []
  {
    var m := Mitigations(h);
    if |m| == 0 {
    } else if |m| == 1 {
      assert m == [IgnoreAbort];
      assert Collect(m, f) == f(IgnoreAbort) + Collect([], f);
    } else {
      assert m == [IgnoreAbort, SetTimeLimit0];
      assert m[1..] == [SetTimeLimit0];
      assert Collect(m[1..], f) == f(SetTimeLimit0) + Collect([], f);
    }
  }

  /** Observing a trace one event at a time. */
  lemma CollectCons<X>(e: Event, t: seq<Event>, f: Event -> seq<X>)
    ensures Collect([e] + t, f) == f(e) + Collect(t, f)
  {
  }

  /** What an observer sees of one loop iteration. */
  lemma StepCollected<X>(hook: Hook, id: BlogId, f: Event -> seq<X>)
    ensures Collect([SwitchTo(id), CallHook(hook), Restore], f)
      == f(SwitchTo(id)) + f(CallHook(hook)) + f(Restore)
  {
    CollectCons(Restore, [], f);
    assert [Restore] + [] == [Restore];
    CollectCons(CallHook(hook), [Restore], f);
    assert [CallHook(hook)] + [Restore] == [CallHook(hook), Restore];
    CollectCons(SwitchTo(id), [CallHook(hook), Restore], f);
    assert [SwitchTo(id)] + [CallHook(hook), Restore] == [SwitchTo(id), CallHook(hook), Restore];
  }

  /** What each observer sees of one loop iteration. */
  lemma StepObserved(hook: Hook, id: BlogId)
    ensures HooksCalled([SwitchTo(id), CallHook(hook), Restore]) == [hook]
    ensures SwitchedTo([SwitchTo(id), CallHook(hook), Restore]) == [id]
    ensures Brackets([SwitchTo(id), CallHook(hook), Restore]) == [true, false]
    ensures Writes([SwitchTo(id), CallHook(hook), Restore]) == []
  {
    StepCollected(hook, id, HookOf);
    StepCollected(hook, id, SwitchOf);
    StepCollected(hook, id, BracketOf);
    StepCollected(hook, id, WriteOf);
  }

  /** What each observer sees of the whole `foreach` loop. */
  lemma {:induction false} LoopObserved(hook: Hook, ids: seq<BlogId>, activated: seq<BlogId>)
    ensures HooksCalled(ForEachBlog(hook, ids, activated).trace) == Repeat(hook, |ids|)
    ensures SwitchedTo(ForEachBlog(hook, ids, activated).trace) == ids
    ensures Brackets(ForEachBlog(hook, ids, activated).trace) == PairsOf(|ids|)
    ensures Writes(ForEachBlog(hook, ids, activated).trace) == []
    decreases |ids|
  {
    if |ids| > 0 {
      var step := [SwitchTo(ids[0]), CallHook(hook), Restore];
      var rest := ForEachBlog(hook, ids[1..], activated + [ids[0]]);
      var t := ForEachBlog(hook, ids, activated).trace;
      assert t == step + rest.trace;
      LoopObserved(hook, ids[1..], activated + [ids[0]]);
      StepObserved(hook, ids[0]);
      CollectAppend(step, rest.trace, HookOf);
      CollectAppend(step, rest.trace, SwitchOf);
      CollectAppend(step, rest.trace, BracketOf);
      CollectAppend(step, rest.trace, WriteOf);
      assert [hook] + Repeat(hook, |ids| - 1) == Repeat(hook, |ids|);
      assert [ids[0]] + ids[1..] == ids;
    }
  }

  /** `n` switch/restore pairs. */
  function PairsOf(n: nat): (b: seq<bool>)
    ensures |b| == 2 * n
    ensures StrictlyPaired(b)
    decreases n
  {
    if n == 0 then [] else [true, false] + PairsOf(n - 1)
  }

  /** An observer that ignores the mitigations sees a network-wide run as
      the loop followed by the final write. */
  lemma NetworkCollected<X>(hook: Hook, networkWide: bool, h: Host, f: Event -> seq<X>)
    requires FansOut(networkWide, h)
    requires f(IgnoreAbort) == [] && f(SetTimeLimit0) == []
    ensures Collect(DoMultisite(hook, networkWide, h).trace, f)
      == Collect(ForEachBlog(hook, h.blogIds, PriorActivated(h)).trace, f)
         + f(WriteActivated(PriorActivated(h) + h.blogIds))
  {
    var m := Mitigations(h);
    var loop := ForEachBlog(hook, h.blogIds, PriorActivated(h));
    var w := WriteActivated(loop.activated);
    assert DoMultisite(hook, networkWide, h).trace == m + loop.trace + [w];
    MitigationsUnseen(h, f);
    CollectAppend(m + loop.trace, [w], f);
    CollectAppend(m, loop.trace, f);
    CollectCons(w, [], f);
    assert [w] + [] == [w];
  }

  /** What each observer sees of a network-wide run. */
  lemma NetworkObserved(hook: Hook, networkWide: bool, h: Host)
    requires FansOut(networkWide, h)
    ensures HooksCalled(DoMultisite(hook, networkWide, h).trace) == Repeat(hook, |h.blogIds|)
    ensures SwitchedTo(DoMultisite(hook, networkWide, h).trace) == h.blogIds
    ensures Brackets(DoMultisite(hook, networkWide, h).trace) == PairsOf(|h.blogIds|)
    ensures Writes(DoMultisite(hook, networkWide, h).trace) == [PriorActivated(h) + h.blogIds]
  {
    LoopObserved(hook, h.blogIds, PriorActivated(h));
    NetworkCollected(hook, networkWide, h, HookOf);
    NetworkCollected(hook, networkWide, h, SwitchOf);
    NetworkCollected(hook, networkWide, h, BracketOf);
    NetworkCollected(hook, networkWide, h, WriteOf);
  }

  // ---------------------------------------------------------------------
  // The executor

  /** Outside a network-wide run the hook is called once, in place: no
      switch, no mitigation, no write, and the stored option is untouched. */
  lemma SingleSiteRunsOnce(hook: Hook, networkWide: bool, h: Host)
    requires !FansOut(networkWide, h)
    ensures HooksCalled(DoMultisite(hook, networkWide, h).trace) == [hook]
    ensures SwitchedTo(DoMultisite(hook, networkWide, h).trace) == []
    ensures Writes(DoMultisite(hook, networkWide, h).trace) == []
    ensures IgnoreAbort !in DoMultisite(hook, networkWide, h).trace
    ensures SetTimeLimit0 !in DoMultisite(hook, networkWide, h).trace
    ensures |DoMultisite(hook, networkWide, h).trace| == 1
    ensures DoMultisite(hook, networkWide, h).activatedOption == h.activatedOption
  {
    var t := DoMultisite(hook, networkWide, h).trace;
    assert t == [CallHook(hook)] + [];
    CollectCons(CallHook(hook), [], HookOf);
    CollectCons(CallHook(hook), [], SwitchOf);
    CollectCons(CallHook(hook), [], WriteOf);
  }

  /** The number of hook calls and the blogs visited, for every input:
      one call in place, or one call per blog in query order. */
  lemma HookCallsPerBlog(hook: Hook, networkWide: bool, h: Host)
    ensures HooksCalled(DoMultisite(hook, networkWide, h).trace)
      == Repeat(hook, if FansOut(networkWide, h) then |h.blogIds| else 1)
    ensures SwitchedTo(DoMultisite(hook, networkWide, h).trace)
      == (if FansOut(networkWide, h) then h.blogIds else [])
    ensures StrictlyPaired(Brackets(DoMultisite(hook, networkWide, h).trace))
  {
    if FansOut(networkWide, h) {
      NetworkObserved(hook, networkWide, h);
    } else {
      SingleSiteRunsOnce(hook, networkWide, h);
      var t := DoMultisite(hook, networkWide, h).trace;
      assert t == [CallHook(hook)] + [];
      CollectCons(CallHook(hook), [], BracketOf);
    }
  }

  /** In a network-wide run every hook call sits between the switch to its
      own blog just before it and a restore just after it. The blog is the
      one at the call's position in the loop, counted past the mitigations. */
  lemma HookCallBracketed(hook: Hook, networkWide: bool, h: Host, k: nat)
    requires FansOut(networkWide, h)
    requires k < |DoMultisite(hook, networkWide, h).trace|
    requires DoMultisite(hook, networkWide, h).trace[k].CallHook?
    ensures var t := DoMultisite(hook, networkWide, h).trace;
      0 < k < |t| - 1 && |Mitigations(h)| <= k
      && (k - |Mitigations(h)|) / 3 < |h.blogIds|
      && t[k - 1] == SwitchTo(h.blogIds[(k - |Mitigations(h)|) / 3])
      && t[k + 1] == Restore
  {
    var m := Mitigations(h);
    var loop := ForEachBlog(hook, h.blogIds, PriorActivated(h));
    var t := DoMultisite(hook, networkWide, h).trace;
    assert t == m + loop.trace + [WriteActivated(loop.activated)];
    if |m| <= k < |m| + |loop.trace| {
      var j := k - |m|;
      assert t[k] == loop.trace[j];
      LoopCallBracketed(hook, h.blogIds, PriorActivated(h), j);
      assert t[k - 1] == loop.trace[j - 1];
      assert t[k + 1] == loop.trace[j + 1];
    }
  }

  /** Inside the loop, a hook call has its switch just before it and its
      restore just after it. */
  lemma LoopCallBracketed(hook: Hook, ids: seq<BlogId>, activated: seq<BlogId>, j: nat)
    requires j < |ForEachBlog(hook, ids, activated).trace|
    requires ForEachBlog(hook, ids, activated).trace[j].CallHook?
    ensures var t := ForEachBlog(hook, ids, activated).trace;
      0 < j < |t| - 1 && t[j - 1] == SwitchTo(ids[j / 3]) && t[j + 1] == Restore
  {
  }

  /** The `activated` option: a network-wide run writes it exactly once, as
      its last call, with the prior value (default empty) followed by every
      blog in query order, without de-duplication; any other run leaves it
      alone. */
  lemma ActivatedAppended(hook: Hook, networkWide: bool, h: Host)
    ensures Writes(DoMultisite(hook, networkWide, h).trace)
      == (if FansOut(networkWide, h) then [PriorActivated(h) + h.blogIds] else [])
    ensures FansOut(networkWide, h) ==>
      var t := DoMultisite(hook, networkWide, h).trace;
      t[|t| - 1] == WriteActivated(PriorActivated(h) + h.blogIds)
    ensures DoMultisite(hook, networkWide, h).activatedOption
      == (if FansOut(networkWide, h) then Some(PriorActivated(h) + h.blogIds) else h.activatedOption)
  {
    if FansOut(networkWide, h) {
      NetworkObserved(hook, networkWide, h);
    } else {
      SingleSiteRunsOnce(hook, networkWide, h);
    }
  }

  /** `ignore_user_abort(true)` is requested exactly for network-wide runs
      over more than two blogs, and then as the very first call, before any
      switch. */
  lemma AbortIgnoredIffMany(hook: Hook, networkWide: bool, h: Host)
    ensures IgnoreAbort in DoMultisite(hook, networkWide, h).trace
      <==> FansOut(networkWide, h) && |h.blogIds| > 2
    ensures var t := DoMultisite(hook, networkWide, h).trace;
      forall k :: 0 <= k < |t| && t[k] == IgnoreAbort ==> k == 0
  {
  }

  /** `set_time_limit(0)` is attempted exactly for network-wide runs over
      more than two blogs whose `disable_functions` setting does not list
      `set_time_limit`, and then right after `ignore_user_abort`. */
  lemma TimeLimitLiftedIff(hook: Hook, networkWide: bool, h: Host)
    ensures SetTimeLimit0 in DoMultisite(hook, networkWide, h).trace
      <==> FansOut(networkWide, h) && |h.blogIds| > 2
           && !IsFuncDisabled(h.disableFunctions, "set_time_limit")
    ensures var t := DoMultisite(hook, networkWide, h).trace;
      forall k :: 0 <= k < |t| && t[k] == SetTimeLimit0 ==> k == 1 && t[0] == IgnoreAbort
  {
  }

  /** An `activated` option that was never stored reads as the empty list,
      so a network-wide run over it stores exactly the blogs it processed. */
  lemma NeverStoredStartsEmpty(hook: Hook, networkWide: bool, h: Host)
    requires FansOut(networkWide, h)
    requires h.activatedOption.None?
    ensures DoMultisite(hook, networkWide, h).activatedOption == Some(h.blogIds)
    ensures Writes(DoMultisite(hook, networkWide, h).trace) == [h.blogIds]
  {
    NetworkObserved(hook, networkWide, h);
    assert PriorActivated(h) + h.blogIds == h.blogIds;
  }

  /** A first network-wide activation over blogs ["7", "8"] stores ["7", "8"]. */
  lemma FirstActivationExample()
    ensures ActivatePlugin(true, Host(true, ["7", "8"], None, "")).activatedOption == Some(["7", "8"])
  {
    NeverStoredStartsEmpty(ActivateSite, true, Host(true, ["7", "8"], None, ""));
  }

  /** The merge is an append: a prior record ["1", "2"] and blogs ["2", "3"]
      give ["1", "2", "2", "3"]. */
  lemma MergeExample()
    ensures ActivatePlugin(true, Host(true, ["2", "3"], Some(["1", "2"]), "")).activatedOption
      == Some(["1", "2", "2", "3"])
  {
    var h := Host(true, ["2", "3"], Some(["1", "2"]), "");
    ActivatedAppended(ActivateSite, true, h);
    assert PriorActivated(h) + h.blogIds == ["1", "2", "2", "3"];
  }

  // ---------------------------------------------------------------------
  // The entry points

  /** `activate_plugin` runs the activation hook and passes the caller's
      flag through: it fans out exactly on a multisite network with the flag
      set. */
  lemma ActivatePassesFlag(networkWide: bool, h: Host)
    ensures HooksCalled(ActivatePlugin(networkWide, h).trace)
      == Repeat(ActivateSite, if h.multisite && networkWide then |h.blogIds| else 1)
    ensures SwitchedTo(ActivatePlugin(networkWide, h).trace)
      == (if h.multisite && networkWide then h.blogIds else [])
  {
    HookCallsPerBlog(ActivateSite, networkWide, h);
  }

  /** `deactivate_plugin` runs the deactivation hook and passes the
      caller's flag through. */
  lemma DeactivatePassesFlag(networkWide: bool, h: Host)
    ensures HooksCalled(DeactivatePlugin(networkWide, h).trace)
      == Repeat(DeactivateSite, if h.multisite && networkWide then |h.blogIds| else 1)
    ensures SwitchedTo(DeactivatePlugin(networkWide, h).trace)
      == (if h.multisite && networkWide then h.blogIds else [])
  {
    HookCallsPerBlog(DeactivateSite, networkWide, h);
  }

  /** `uninstall_plugin` always fans out on a multisite network: it runs the
      uninstall hook once per blog whatever any caller wanted. */
  lemma UninstallAlwaysNetworkWide(h: Host)
    ensures HooksCalled(UninstallPlugin(h).trace)
      == Repeat(UninstallSite, if h.multisite then |h.blogIds| else 1)
    ensures SwitchedTo(UninstallPlugin(h).trace) == (if h.multisite then h.blogIds else [])
    ensures h.multisite ==> UninstallPlugin(h).activatedOption == Some(PriorActivated(h) + h.blogIds)
  {
    HookCallsPerBlog(UninstallSite, true, h);
    ActivatedAppended(UninstallSite, true, h);
  }

  /** The `activated` record is appended by every network-wide run, not
      only by activation: a network-wide deactivation records the blogs it
      deactivated as well. */
  lemma DeactivateAlsoRecords(h: Host)
    requires h.multisite
    ensures DeactivatePlugin(true, h).activatedOption == Some(PriorActivated(h) + h.blogIds)
  {
  }
}
