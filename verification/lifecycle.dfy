/**
 The lifecycle dispatcher of the installer: the three entry points
 (`activate_plugin`, `deactivate_plugin`, `uninstall_plugin`) and the fan-out
 executor `do_multisite` they all delegate to.

 WordPress is abstracted into a `Host` record (is the install a multisite
 network, the blog ids its `blogs` table lists, the stored `activated` site
 option, the `disable_functions` setting). Every call the executor makes into
 WordPress or the PHP runtime becomes an `Event` of a trace, so that an
 execution is the pure value `Outcome(trace, stored option afterwards)`.
 */
module Lifecycle {
  import opened Probe

  /** A blog id as returned by `$wpdb->get_col`: an opaque string. */
  type BlogId = string

  datatype Option<T> = None | Some(value: T)

  /** The per-site hook an entry point fans out; its body is not modelled. */
  datatype Hook = ActivateSite | DeactivateSite | UninstallSite

  /** One observable call into the host. */
  datatype Event =
    | SwitchTo(blog: BlogId)                 // switch_to_blog(blog)
    | CallHook(hook: Hook)                   // call_user_func_array(method, [args])
    | Restore                                // restore_current_blog()
    | IgnoreAbort                            // ignore_user_abort(true)
    | SetTimeLimit0                          // @set_time_limit(0)
    | WriteActivated(activated: seq<BlogId>) // update_site_option(prefix . 'activated', ...)

  /** What the executor reads from WordPress. `activatedOption` is `None`
      when the site option has never been stored. */
  datatype Host = Host(
    multisite: bool,
    blogIds: seq<BlogId>,
    activatedOption: Option<seq<BlogId>>,
    disableFunctions: string)

  /** A run of the executor: the calls it made, and the stored `activated`
      site option once it returns. */
  datatype Outcome = Outcome(trace: seq<Event>, activatedOption: Option<seq<BlogId>>)

  /** The option key prefix of the installer class. */
  const OptionPrefix: string := "plugin_prefix_"

  /** The name of the site option that records processed blogs. */
  const ActivatedOptionName: string := OptionPrefix + "activated"

  /** Above this many blogs the executor asks the runtime not to time out. */
  const MitigationThreshold: nat := 2

  /** `get_site_option(prefix . 'activated', [])`: the stored list, or the empty default. */
  function PriorActivated(h: Host): seq<BlogId>
  {
    match h.activatedOption
    case None => []
    case Some(v) => v
  }

  /** The executor iterates over the network exactly when this holds. */
  predicate FansOut(networkWide: bool, h: Host)
  {
    h.multisite && networkWide
  }

  /** The timeout mitigations requested before the loop. */
  function Mitigations(h: Host): (events: seq<Event>)
    ensures IgnoreAbort in events <==> |h.blogIds| > MitigationThreshold
    ensures SetTimeLimit0 in events <==>
      |h.blogIds| > MitigationThreshold && !IsFuncDisabled(h.disableFunctions, "set_time_limit")
    ensures forall k :: 0 <= k < |events| ==> (events[k] == IgnoreAbort <==> k == 0)
    ensures forall k :: 0 <= k < |events| ==> events[k].IgnoreAbort? || events[k].SetTimeLimit0?
    ensures |events| <= 2
  {
    if |h.blogIds| > MitigationThreshold then
      if !IsFuncDisabled(h.disableFunctions, "set_time_limit") then [IgnoreAbort, SetTimeLimit0]
      else [IgnoreAbort]
    else []
  }

  /** The result of the `foreach` over the blog ids: the calls it made and
      the accumulated `$activated` list. */
  datatype LoopResult = LoopResult(trace: seq<Event>, activated: seq<BlogId>)

  /** The `foreach ($blog_ids as $blog_id)` loop, started with accumulator
      `activated`. Position `k` of the trace belongs to blog `k / 3`: first
      the switch to it, then the hook, then the restore. */
  function ForEachBlog(hook: Hook, ids: seq<BlogId>, activated: seq<BlogId>): (r: LoopResult)
    ensures r.activated == activated + ids
    ensures |r.trace| == 3 * |ids|
    ensures forall k :: 0 <= k < |r.trace| ==>
      r.trace[k] == (if k % 3 == 0 then SwitchTo(ids[k / 3])
                     else if k % 3 == 1 then CallHook(hook)
                     else Restore)
    decreases |ids|
  {
    if |ids| == 0 then LoopResult([], activated)
    else
      var rest := ForEachBlog(hook, ids[1..], activated + [ids[0]]);
      assert activated + [ids[0]] + ids[1..] == activated + ids;
      LoopResult([SwitchTo(ids[0]), CallHook(hook), Restore] + rest.trace, rest.activated)
  }

  /** `do_multisite($network_wide, $method)`. */
  function DoMultisite(hook: Hook, networkWide: bool, h: Host): (o: Outcome)
    ensures |o.trace| >= 1
    ensures !FansOut(networkWide, h) ==> o.activatedOption == h.activatedOption
    ensures FansOut(networkWide, h) ==> o.activatedOption == Some(PriorActivated(h) + h.blogIds)
  {
    if FansOut(networkWide, h) then
      var loop := ForEachBlog(hook, h.blogIds, PriorActivated(h));
      Outcome(Mitigations(h) + loop.trace + [WriteActivated(loop.activated)], Some(loop.activated))
    else
      Outcome([CallHook(hook)], h.activatedOption)
  }

  /** `activate_plugin($network_wide)`. */
  function ActivatePlugin(networkWide: bool, h: Host): Outcome
  {
    DoMultisite(ActivateSite, networkWide, h)
  }

  /** `deactivate_plugin($network_wide)`. */
  function DeactivatePlugin(networkWide: bool, h: Host): Outcome
  {
    DoMultisite(DeactivateSite, networkWide, h)
  }

  /** `uninstall_plugin()`: takes no flag and always asks for the network-wide run. */
  function UninstallPlugin(h: Host): Outcome
  {
    DoMultisite(UninstallSite, true, h)
  }

  // ---------------------------------------------------------------------
  // Observers of a trace

  /** Concatenation of `f` applied to each event, in order. */
  function Collect<X>(t: seq<Event>, f: Event -> seq<X>): seq<X>
    decreases |t|
  {
    if |t| == 0 then [] else f(t[0]) + Collect(t[1..], f)
  }

  lemma {:induction false} CollectAppend<X>(a: seq<Event>, b: seq<Event>, f: Event -> seq<X>)
    ensures Collect(a + b, f) == Collect(a, f) + Collect(b, f)
    decreases |a|
  {
    if |a| == 0 {
      assert a + b == b;
    } else {
      assert (a + b)[0] == a[0];
      assert (a + b)[1..] == a[1..] + b;
      CollectAppend(a[1..], b, f);
    }
  }

  function HookOf(e: Event): seq<Hook> { if e.CallHook? then [e.hook] else [] }
  function SwitchOf(e: Event): seq<BlogId> { if e.SwitchTo? then [e.blog] else [] }
  function BracketOf(e: Event): seq<bool> { if e.SwitchTo? then [true] else if e.Restore? then [false] else [] }
  function WriteOf(e: Event): seq<seq<BlogId>> { if e.WriteActivated? then [e.activated] else [] }

  /** The hooks called, in order. */
  function HooksCalled(t: seq<Event>): seq<Hook> { Collect(t, HookOf) }

  /** The blogs switched to, in order. */
  function SwitchedTo(t: seq<Event>): seq<BlogId> { Collect(t, SwitchOf) }

  /** The switch (`true`) and restore (`false`) calls, in order. */
  function Brackets(t: seq<Event>): seq<bool> { Collect(t, BracketOf) }

  /** The values written to the `activated` option, in order. */
  function Writes(t: seq<Event>): seq<seq<BlogId>> { Collect(t, WriteOf) }

  /** Switches and restores strictly alternate, starting with a switch and
      ending with a restore. */
  predicate StrictlyPaired(b: seq<bool>)
  {
    |b| % 2 == 0 && forall i :: 0 <= i < |b| ==> b[i] == (i % 2 == 0)
  }

  /** `n` calls of `hook`. */
  function Repeat(hook: Hook, n: nat): seq<Hook>
  {
    seq(n, _ => hook)
  }
}
