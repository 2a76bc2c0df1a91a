# Plugin install routine: lifecycle fan-out

A Dafny model of the `Installer` helper class of a WordPress plugin install
routine (`src/Installer.php`). The class has three entry points:
`activate_plugin`, `deactivate_plugin` and `uninstall_plugin`. Each hands a
per-site hook to one executor, `do_multisite`. The executor runs the hook
once in place, or, on a multisite network asked to act network-wide, once per
blog. In the network-wide case it also does three other things:

- it asks PHP not to time out when there are more than two blogs;
- it switches into each blog and back around the hook;
- it appends every blog it processed to the `plugin_prefix_activated` site option.

`is_func_disabled` is the capability probe. It decides whether
`set_time_limit` may be called, by splitting PHP's `disable_functions`
setting at commas.

The model has three modules:

- `Probe` (`probe.dfy`): PHP's `explode` as a recursive split, `implode` as
  its inverse, and `is_func_disabled`. Both round trips are proved. So is a
  characterisation of the probe against any comma-join of names.
- `Lifecycle` (`lifecycle.dfy`): WordPress becomes a `Host` record holding
  four things: the multisite flag, the blog ids the `blogs` table lists, the
  stored `activated` option (absent or a list), and the `disable_functions`
  string. `do_multisite` is a pure function. It returns an `Outcome`: a trace
  of `Event`s and the stored option afterwards. The events are `SwitchTo`,
  `CallHook`, `Restore`, `IgnoreAbort`, `SetTimeLimit0` and `WriteActivated`.
  The three entry points are functions over it.
- `LifecycleProperties` (`lifecycle_properties.dfy`): observers of a trace
  (hooks called, blogs switched to, switch/restore brackets, option writes)
  and the properties of the executor and the entry points, stated over them.

Two behaviours of the code are easy to misread, and the model keeps both as written:

- `uninstall_plugin` takes no flag at all (src/Installer.php:49). It always
  passes `true` to the executor, so `UninstallPlugin` has no flag parameter.
- The `activated` option is appended and written by every network-wide run,
  including deactivation and uninstall, not only by activation
  (src/Installer.php:64-88 do not look at the hook).
  `LifecycleProperties.DeactivateAlsoRecords` states this. Whether this is
  intended cannot be told from the code, so the model does not treat it as a bug.

## Model

| member | source | states |
|---|---|---|
| Probe.Explode | src/Installer.php:119 | `explode(',', …)` always yields at least one piece, and no piece contains the separator (empty pieces are kept, nothing is trimmed) |
| Probe.JoinExplode | src/Installer.php:119 | re-joining the pieces of a split with the separator gives back the original setting string exactly |
| Probe.ExplodeJoin | src/Installer.php:119 | splitting the join of any non-empty list of separator-free pieces gives back exactly that list, so the split is the unique such decomposition |
| Probe.DisabledList | src/Installer.php:117-119 | a falsy setting gives the empty list; otherwise the list is non-empty, separator-free, and joins back to the setting |
| Probe.IsFuncDisabled | src/Installer.php:116-122 | a falsy setting disables nothing and a name containing a comma is never disabled (the full characterisation is `Probe.DisabledIffListed`) |
| Probe.DisabledIffListed | src/Installer.php:119-121 | when the setting is the comma-join of separator-free names, a function is disabled exactly when its name equals one of them (strict comparison, both directions) |
| Probe.ProbeExamples | src/Installer.php:116-122 | the empty setting disables nothing; "a,x,b" disables "x"; "a,b" does not; "a, x" does not disable "x" but does disable " x"; the setting "0" disables nothing |
| Lifecycle.Mitigations | src/Installer.php:69-77 | `ignore_user_abort` is requested iff there are more than two blogs, and always first; `set_time_limit(0)` iff also `set_time_limit` is not disabled; nothing else is requested, at most two calls |
| Lifecycle.ForEachBlog | src/Installer.php:79-86 | the loop emits, for the blog at each position, a switch to it, one hook call and one restore, in query order, and leaves the accumulator as the start value followed by all blog ids |
| Lifecycle.DoMultisite | src/Installer.php:60-92 | a single-site run leaves the stored option as it was; a network-wide run leaves it as the prior record followed by every blog id |
| LifecycleProperties.LoopObserved | src/Installer.php:79-86 | over the loop, hooks called are N copies of the hook, blogs switched to are the ids in order, switches and restores form N strict pairs, and nothing is written |
| LifecycleProperties.NetworkObserved | src/Installer.php:63-88 | a network-wide run calls the hook N times, switches to the ids in order, pairs every switch with a restore, and writes prior-plus-ids exactly once |
| LifecycleProperties.SingleSiteRunsOnce | src/Installer.php:89-91 | outside a network-wide run the trace is one hook call: no switch, no mitigation, no write, option unchanged |
| LifecycleProperties.HookCallsPerBlog | src/Installer.php:63-91 | for every input: the hook runs N times over the blogs in query order when multisite and network-wide, otherwise exactly once without switching; switches and restores always strictly alternate |
| LifecycleProperties.HookCallBracketed | src/Installer.php:79-86 | in a network-wide run every hook call is immediately preceded by the switch to its own blog (the one at its loop position) and immediately followed by a restore |
| LifecycleProperties.LoopCallBracketed | src/Installer.php:79-86 | inside the loop, each hook call is preceded by the switch to its own blog and followed by a restore |
| LifecycleProperties.ActivatedAppended | src/Installer.php:64-88 | a network-wide run writes the option exactly once, as its last call, with prior record then every blog id (no de-duplication or reordering); other runs never write it |
| LifecycleProperties.AbortIgnoredIffMany | src/Installer.php:70-79 | `ignore_user_abort(true)` is requested iff the run is network-wide over more than two blogs, and only as the very first call, before any switch |
| LifecycleProperties.TimeLimitLiftedIff | src/Installer.php:70-76 | `set_time_limit(0)` is attempted iff network-wide, more than two blogs, and the probe does not report it disabled; it is always the second call, right after `ignore_user_abort` |
| LifecycleProperties.NetworkCollected | src/Installer.php:63-88 | an observer blind to the mitigations sees a network-wide run as the loop followed by one write of prior-plus-ids |
| LifecycleProperties.NeverStoredStartsEmpty | src/Installer.php:64-88 | when the option was never stored, the prior record defaults to empty, so a network-wide run stores and writes exactly the blogs it processed |
| LifecycleProperties.FirstActivationExample | src/Installer.php:64-88 | a first network-wide activation over blogs ["7","8"] with no stored option stores ["7","8"] |
| LifecycleProperties.MergeExample | src/Installer.php:83-88 | prior record ["1","2"] with blogs ["2","3"] is stored as ["1","2","2","3"] |
| LifecycleProperties.ActivatePassesFlag | src/Installer.php:33-35 | activation runs only the activate hook and fans out exactly when multisite and the caller's flag is set |
| LifecycleProperties.DeactivatePassesFlag | src/Installer.php:42-44 | deactivation runs only the deactivate hook and fans out exactly when multisite and the caller's flag is set |
| LifecycleProperties.UninstallAlwaysNetworkWide | src/Installer.php:49-51 | uninstall runs only the uninstall hook and on any multisite network fans out to every blog and appends them to the record |
| LifecycleProperties.DeactivateAlsoRecords | src/Installer.php:60-88 | a network-wide deactivation also appends the blogs it processed to the `activated` record |

## Left out

- WordPress and PHP calls: `is_multisite`, the `$wpdb->get_col` query, `get_site_option`, `update_site_option` and `ini_get`. They are inputs of the `Host` record or trace events, not behaviour. Their results are taken as given.
- The process effects of `ignore_user_abort`, `set_time_limit` and PHP's `@` error suppression. Only the fact that they were requested is recorded.
- A hook that throws or aborts part-way through the loop. Hooks are assumed to return normally. Because the write comes after the loop, an aborted run would write nothing.
- The bodies of the default hooks `activate_site`, `deactivate_site` and `uninstall_site`, and subclass overrides through late static binding. A hook is an opaque `CallHook` event.
- The `$args` parameter of `do_multisite`, which is always `[]` on every call path.
- PHP truthiness beyond strings: `ini_get` returning `false` for an unknown setting is modelled as the empty string. A stored `activated` option that is not an array is not modelled.
- Concurrent invocations, and the last-writer-wins read-modify-write of the option: these are host concerns, and the model describes one run.
- The literal option key: `OPTION_PREFIX` is recorded as a constant, and `WriteActivated` implies the key `plugin_prefix_activated`.
