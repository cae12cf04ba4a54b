# TuneD: a verified model of its core

TuneD hands devices to the instances of its plugins, writes system knobs on their behalf, and promises to be able to
undo everything. This project models the parts of TuneD where that is hard, and proves what they keep over every
input, every run or every reachable state. `dafny verify dfyconfig.toml` checks all of it.

| files | what they model |
|---|---|
| `PluginModel`, `Modifiers`, `PluginInvariants`, `HotplugPlugin` | one device plugin: the free pool, prioritised instances, knobs and saved values |
| `DeviceSystem`, `StartUp`, `Controller` | all plugins with the unit manager's instance list: start-up, hot-plugging, the D-Bus instance calls, the stop |
| `RollbackRuns`, `TuningRuns`, `DeviceRuns`, `PriorityRuns`, `AcquireCalls`, `Owners`, `OrderRuns` | what runs of that system keep: originals, the values written, every device, priority order; and which instance gets a device |
| `RollbackStack` | start and stop of instances that write the same knobs, and the storage keys |
| `PpdConfig`, `PpdModel`, `PpdFile`, `PpdController` | the tuned-ppd service: profile maps, holds, battery, signals, and all of it in terms of the configuration file |
| `Expander`, `Documents`, `IncludeLoader`, `Merger`, `MergeOrder` | the profile language: function calls and what they stand for, includes, merging |
| `CpuMask`, `CpuList`, `CpuTokens` | CPU lists, what each token stands for, bit masks and grouped hexadecimal masks |
| `Uncore`, `Scheduler`, `RpmOstree` | three plugins with their own rollback problem |
| `Lifecycle` | starting, stopping, switching, reloading and disabling the daemon |
| `Text`, `Lists` | the Python text primitives and facts about lists that the rest uses |

Code that updates state step by step is a class or a loop here (`HotplugPlugin.Plugin`, `Controller.Controller`,
`RollbackStack.Tuner`, `PpdController.Controller`, `Expander.Parser`, `IncludeLoader.Loader`,
`Merger.MergedProfile`, `Uncore.Plugin`, `Scheduler.Plugin`, `RpmOstree.Bootloader`, `Lifecycle.Daemon`,
`Lifecycle.Controller`). Every method is proved to do to its fields what a specification function does to the value of
those fields, and the properties are proved of these functions. Iterations over Python sets take the elements in an
arbitrary order.

The outside world is a parameter: the device matcher, the function table of the expander, the profile directories,
the answers of TuneD to tuned-ppd, whether a write, a kernel call or rpm-ostree succeeds, and the moment and order of
all events.

Some statements that one might expect are false of the code. For each there is a lemma in which it fails, and one that
says exactly when it holds. The failing lemma is a concrete case, or a whole family of cases
(`RpmOstree.RefusedRemovalAdopts`, `PpdModel.RefusedHoldBreaksLaw`, `PpdModel.SilentSwitchIsMissed`,
`PpdModel.SilentBatteryIsMissed`):

- An explicit acquire can leave a device with an instance that does not match it (`AcquireCalls.AcquireCanBreakPriority`, `AcquireCalls.AcquireBestIff`).
- Storage keys collide when an instance name has a slash (`RollbackStack.StorageKeyCollides`, `RollbackStack.StorageKeyInjective`).
- A call without output at the start of a text makes the expander skip a character, and what it then takes for a call depends on that output (`Expander.SkippedCall`, `Expander.OutputMatters`, `Expander.StepsAreCleanIff`, `Expander.SameStepIff`).
- The documentation of `cpulist_unpack` has blanks before masks and negations; the code then finds the list malformed (`CpuList.DocumentedListsAreMalformed`, `CpuList.SpacedMaskIsMalformed`).
- A script unit without a `script` option doubles the list of scripts (`Merger.ScriptsDouble`, `Merger.ScriptsAppendIff`, `Merger.ScriptsClosedForm`).
- The uncore limits cannot always be restored in the order they were set (`Uncore.ForwardCleanupFails`, `Uncore.ForwardCleanupIff`).
- A PID that is used again unnoticed gets the values of another process, and a late exit notice drops those of a living one (`Scheduler.ReusedPid`, `Scheduler.LateNotice`, `Scheduler.RunInvIff`).
- Kernel arguments that rpm-ostree refuses to remove are taken for the user's from then on (`RpmOstree.RefusedRemovalAdopts`, `RpmOstree.RunAccountedIff`).
- A request that TuneD refuses can break the law of the holds (`PpdModel.RefusedHoldBreaksLaw`, `PpdModel.RunLawIff`).
- tuned-ppd can lose sight of a stopped TuneD, by an outside switch or a refused battery change (`PpdModel.SilentSwitchIsMissed`, `PpdModel.SilentBatteryIsMissed`, `PpdModel.RunThenDrainSynced`).

## Model

| member | source | states |
|---|---|---|
| `StartUp.StartUpThenRunThenStopRestores` | tuned/units/manager.py:63-117 | From the configured units in any order, through any run of start, hot-add, hot-remove, acquire, create and destroy, to a stop with rollback: every knob of every plugin ends with the value it had when its device was first seen |
| `Owners.StartUpThenRunHolds` | tuned/units/manager.py:63-117 | From the configured units through any run, each knob of a tuned device holds what the option of its instance makes of the value first seen, and every other knob holds that value |
| `TuningRuns.RunHolds` | tuned/plugins/base.py:531-537 | The same from any state in which it holds |
| `TuningRuns.StepTuned` | tuned/plugins/hotplug.py:39-123 | Every event leaves the knobs of all tuned devices as the options want them |
| `TuningRuns.ApplyWrites` | tuned/plugins/base.py:274-293 | Applying an active instance carries each of its options out on its pending devices, and writes no other knob |
| `Modifiers.ProcessCarries` | tuned/plugins/base.py:494-516 | A plain option, or one of at most one character, is written as it stands; `>v` writes v exactly to raise the value and `<v` exactly to lower it; what cannot be compared is written with its sign |
| `Modifiers.CarriesBounds` | tuned/plugins/base.py:494-516 | With `>` the knob ends with the larger of the two numbers, with `<` with the smaller |
| `StartUp.StartUpThenRunDevices` | tuned/units/manager.py:63-117 | Start-up keeps every device a plugin has found, and after any run of events its devices are exactly those that it had or got and that were not taken away since, each free or with exactly one instance |
| `DeviceRuns.RunDevices` | tuned/plugins/hotplug.py:39-123 | The same from any state that meets the invariants: no run loses or duplicates a device |
| `DeviceRuns.StepDevices` | tuned/plugins/hotplug.py:47-116 | Every event keeps exactly the devices it found, except that a hot-add brings its device, and a hot-remove takes its device away unless an instance has yet to tune it |
| `DeviceRuns.AcquireFromDevices` | tuned/daemon/controller.py:402-420 | An acquire loses or duplicates no device, whatever its outcome |
| `DeviceRuns.CreateDevices` | tuned/daemon/controller.py:507-531 | Creating an instance loses or duplicates no device, the take-over loop included |
| `DeviceRuns.DestroyDevices` | tuned/daemon/controller.py:560-573 | The devices of a destroyed instance are all handed on |
| `DeviceRuns.RemoveDeviceAll` | tuned/plugins/hotplug.py:98-116 | A removed device is gone, unless it is assigned to an instance that has not tuned it yet |
| `RollbackRuns.RunThenStopRestores` | tuned/plugins/base.py:524-545 | The same from any state that meets the invariants: a saved value is always the true original, never another instance's tuning |
| `RollbackRuns.StepInv` | tuned/plugins/hotplug.py:39-123 | Every event keeps all invariants of the whole system: free and assigned devices disjoint, the assigned ones the disjoint union of the instances' devices, originals saved exactly for tuned knobs, instances listed once and in priority order |
| `RollbackRuns.StopRestores` | tuned/units/manager.py:174-178 | In every state with the invariants, unapplying the instances in reverse order restores all knobs |
| `RollbackRuns.StopTuningEmptiesStore` | tuned/units/manager.py:174-178 | Unapplying the first k instances, last one first, empties the storage when it holds only their keys |
| `RollbackRuns.StartTuningInv` | tuned/units/manager.py:147-150 | Applying all instances keeps the invariants, also when they are applied again |
| `RollbackRuns.AcquireFromInv` | tuned/daemon/controller.py:402-415 | The acquire loop keeps the invariants at every point |
| `RollbackRuns.CreateInv` | tuned/daemon/controller.py:471-533 | Creating an instance at run time keeps the invariants, refused calls included |
| `RollbackRuns.DestroyInv` | tuned/daemon/controller.py:535-574 | Destroying an instance keeps the invariants, in whatever order its devices are handed on |
| `RollbackRuns.ArrivalSysInv` | tuned/plugins/hotplug.py:28-58 | A new device joins with its present values as originals, and the invariants hold |
| `RollbackRuns.RemovalSysInv` | tuned/plugins/hotplug.py:98-116 | Removing a device keeps the invariants of the whole system |
| `PluginInvariants.AddDevicesInv` | tuned/plugins/hotplug.py:60-69 | Giving an instance devices that are neither free nor assigned keeps ownership, order and saved originals |
| `PluginInvariants.RemoveDevicesInv` | tuned/plugins/hotplug.py:118-123 | Taking devices from an instance undoes their tuning and keeps the invariants |
| `PluginInvariants.MoveInv` | tuned/daemon/controller.py:402-415 | Handing devices from one instance to another keeps the invariants |
| `PluginInvariants.AddDeviceInv` | tuned/plugins/hotplug.py:47-58 | Adding one device keeps the invariants, whether an instance matches it or not |
| `PluginInvariants.RemoveDeviceInv` | tuned/plugins/hotplug.py:98-116 | Removing one device keeps the invariants |
| `PluginInvariants.AssignFreeInv` | tuned/plugins/base.py:167-183 | Assigning the matching free devices keeps the invariants |
| `PluginInvariants.ApplyTuningInv` | tuned/plugins/base.py:274-293 | Applying an instance keeps the invariants: each knob it writes has its original saved first |
| `PluginInvariants.UnapplyTuningInv` | tuned/plugins/base.py:326-342 | Unapplying an instance keeps the invariants |
| `PluginInvariants.CreateInstanceInv` | tuned/plugins/base.py:96-107 | A new instance is put behind those of equal or smaller priority number, and the invariants hold |
| `PluginInvariants.DestroyInstanceInv` | tuned/plugins/base.py:109-118 | Destroying an instance keeps the invariants exactly when it has no saved values left |
| `StartUp.StartUpThenRunBest` | tuned/units/manager.py:82-113 | From the configured units in any order, every run without explicit acquire leaves no free device that matches a live instance, and every owned device with a matching instance such that no matching instance has a smaller priority number |
| `StartUp.StartUpBest` | tuned/units/manager.py:102-117 | Start-up from sorted units reaches such a state |
| `StartUp.SortUnitsSorts` | tuned/units/manager.py:82-82 | The units are sorted by priority, and none is lost or added |
| `Owners.SortUnitsStable` | tuned/units/manager.py:82-82 | The units of each priority stay in their order |
| `Owners.StartUpOwner` | tuned/units/manager.py:63-117 | Over the units as configured: each device goes to the first configured one among those of the least priority that are enabled, fit the machine, have a supported plugin and match it; without one it stays free |
| `Owners.StartUpInstances` | tuned/units/manager.py:63-117 | After start-up there is exactly one instance for each such unit of a supported plugin, with its own or the default priority, its expression and its options |
| `Owners.StartUpActive` | tuned/units/manager.py:112-113 | After start-up an instance is active exactly when it has devices |
| `OrderRuns.StartUpThenRunInOrder` | tuned/plugins/base.py:96-107 | In every state of every run instances of equal priority stand in the order in which they were created |
| `OrderRuns.StepInOrder` | tuned/plugins/base.py:96-107 | Every event keeps that order |
| `OrderRuns.ArrivalPlaces` | tuned/plugins/hotplug.py:47-58 | In every such state a device that appears goes to the matching instance of the least priority that was created first, and is tuned there; one that none matches becomes free |
| `OrderRuns.DestroyPlaces` | tuned/daemon/controller.py:560-574 | The same for each device of a destroyed instance |
| `OrderRuns.CreateTakes` | tuned/daemon/controller.py:507-531 | A new instance ends with exactly the devices it matches that were free or with an instance of its plugin of equal or worse priority; every other instance keeps exactly the rest |
| `OrderRuns.CreateOutcome` | tuned/daemon/controller.py:471-532 | A create succeeds exactly when the plugin is there, supports hot-plugging and has no instance of that name; then the new one is last in the list with what it was given, else nothing changes |
| `OrderRuns.DestroyOutcome` | tuned/daemon/controller.py:535-574 | A destroy succeeds exactly when the first instance of that name is of a plugin that supports hot-plugging; then exactly that one is gone, else nothing changes |
| `PriorityRuns.RunBest` | tuned/plugins/base.py:104-105 | Every run without explicit acquire keeps each device with a matching instance of the best priority |
| `PriorityRuns.StepBest` | tuned/plugins/hotplug.py:47-58 | Every event but an explicit acquire keeps it |
| `PriorityRuns.TransferFromBest` | tuned/daemon/controller.py:517-531 | The loop that gives a new instance the devices of instances of equal or worse priority leaves every device with a best instance |
| `DeviceRuns.TransferFromDevices` | tuned/daemon/controller.py:521-531 | That loop loses or duplicates no device |
| `PriorityRuns.DestroyBest` | tuned/daemon/controller.py:560-573 | Each processed device of a destroyed instance ends up with a best remaining instance, or free because no instance matches it, and all other devices stay with best ones |
| `AcquireCalls.AcquireMoves` | tuned/daemon/controller.py:379-420 | An acquire succeeds exactly when the instance exists, its plugin supports hot-plugging and the first instance that holds each requested device belongs to that plugin; then all of them are with the target. Failing or not, exactly the devices of `Taken` change hands, and no other plugin changes |
| `AcquireCalls.AcquireOutcome` | tuned/daemon/controller.py:379-420 | The answer: no such instance, no hot-plugging, a device held first by another plugin, a device that nobody holds, or success, in that order |
| `AcquireCalls.AcquireFromDoneIff` | tuned/daemon/controller.py:402-420 | The loop succeeds exactly when every wanted device can be taken |
| `AcquireCalls.AcquireFromMoves` | tuned/daemon/controller.py:402-415 | Failing or not, the loop moves exactly the wanted devices whose first holder is of the target's plugin and comes before the first holder of a wanted device of another plugin; none is lost or duplicated |
| `AcquireCalls.AcquireBestIff` | tuned/daemon/controller.py:379-420 | An acquire call keeps the priority order of the whole system exactly when the target is a best instance for each device it moves: every requested one if it succeeds, those of `Taken` if it fails |
| `AcquireCalls.MovedBestIff` | tuned/daemon/controller.py:414-415 | Moving devices to an instance keeps the order of a plugin exactly when that instance is a best one for each of them |
| `AcquireCalls.AcquireCanBreakPriority` | tuned/daemon/controller.py:402-420 | In a system of one plugin and two instances an acquire succeeds and leaves the device with the instance that does not want it |
| `HotplugPlugin.TuneInPieces` | tuned/plugins/base.py:466-472 | Tuning set by set, in any order of devices and commands, is tuning all at once |
| `HotplugPlugin.UntuneInPieces` | tuned/plugins/base.py:625-629 | The same for undoing |
| `HotplugPlugin.Plugin.constructor` | tuned/plugins/base.py:22-51 | A plugin that has found its devices and has no instances |
| `HotplugPlugin.Plugin.ExecuteDeviceCommand` | tuned/plugins/base.py:531-537 | Saves the current value and writes the new one, or does neither when a modifier finds nothing to change; `TuningRuns.ApplyWrites` says what is written |
| `HotplugPlugin.Plugin.ExecuteAllDeviceCommands` | tuned/plugins/base.py:466-472 | The loop over commands and devices tunes exactly the given devices |
| `HotplugPlugin.Plugin.ExecuteOnDevices` | tuned/plugins/base.py:471-472 | One command on every device, in any order |
| `HotplugPlugin.Plugin.CleanupDeviceCommand` | tuned/plugins/base.py:631-638 | Writes the saved value back, if there is one, and forgets it |
| `HotplugPlugin.Plugin.CleanupAllDeviceCommands` | tuned/plugins/base.py:625-629 | The reversed loop undoes exactly the given devices |
| `HotplugPlugin.Plugin.CleanupOnDevices` | tuned/plugins/base.py:628-629 | One command undone on every device, in any order |
| `HotplugPlugin.Plugin.AddDeviceProcess` | tuned/plugins/hotplug.py:39-45 | Without a check, the device is assigned, processed and tuned; ownership is kept if it was neither free nor assigned |
| `HotplugPlugin.Plugin.AddDevicesNocheck` | tuned/plugins/hotplug.py:60-69 | The loop over any set of devices adds them all, whatever the order, and marks the instance active; ownership is kept if they were neither free nor assigned |
| `HotplugPlugin.Plugin.RemoveDeviceProcess` | tuned/plugins/hotplug.py:71-83 | A processed device is undone and unassigned; another one is left alone, and the result says which |
| `HotplugPlugin.Plugin.RemoveDevicesNocheck` | tuned/plugins/hotplug.py:118-123 | The loop over a set of devices removes those the instance has processed |
| `HotplugPlugin.Plugin.AddDevice` | tuned/plugins/hotplug.py:47-58 | The first matching instance in priority order gets the device, else it becomes free |
| `HotplugPlugin.Plugin.RemoveDevice` | tuned/plugins/hotplug.py:98-116 | The device leaves the first instance that has processed it, or the free pool |
| `HotplugPlugin.Plugin.AssignFreeDevices` | tuned/plugins/base.py:167-183 | The matching free devices become the instance's |
| `HotplugPlugin.Plugin.InstanceApplyTuning` | tuned/plugins/base.py:274-293 | The pending devices are tuned, as `TuningRuns.ApplyWrites` says, and become processed |
| `HotplugPlugin.Plugin.InstanceUnapplyTuning` | tuned/plugins/base.py:326-342 | The processed devices are undone |
| `HotplugPlugin.Plugin.CreateInstance` | tuned/plugins/base.py:96-107 | A name in use is refused; otherwise the instance is inserted at its place in the priority order |
| `HotplugPlugin.Plugin.ReleaseDevices` | tuned/plugins/base.py:185-197 | All devices of the instance become free |
| `HotplugPlugin.Plugin.DestroyInstance` | tuned/plugins/base.py:109-134 | The instance and only it is gone |
| `Controller.Controller.Configure` | tuned/units/manager.py:63-117 | The loops reach the state of which `Owners.StartUpOwner` speaks: the enabled units that fit, stably sorted, one instance for each supported one, free devices taken in that order |
| `Controller.Admit` | tuned/units/manager.py:65-80 | The loop that skips units and fills in the default priority |
| `StartUp.AdmittedSpec` | tuned/units/manager.py:65-80 | Exactly the units that are enabled and fit CPU information and uname are kept, with their priority or the default one, expression and options |
| `Controller.Controller.CreateAll` | tuned/units/manager.py:101-109 | The loop over the sorted units creates the instances in that order |
| `Controller.Controller.AssignEach` | tuned/units/manager.py:110-113 | The loop over the new instances hands out the free devices in that order |
| `Controller.Controller.CreateUnitAt` | tuned/units/manager.py:101-109 | One unit becomes an instance at the end of the list, unless its plugin is not supported |
| `Controller.Controller.AssignAt` | tuned/units/manager.py:110-113 | One listed instance takes the matching free devices of its plugin |
| `Controller.Controller.ApplyAt` | tuned/units/manager.py:148-150 | One listed instance is applied, and no other plugin changes |
| `Controller.Controller.StartTuning` | tuned/units/manager.py:147-150 | All instances are applied in list order |
| `Controller.Controller.UnapplyAt` | tuned/units/manager.py:176-178 | One listed instance is undone, and no other plugin changes |
| `Controller.Controller.StopTuning` | tuned/units/manager.py:174-178 | All instances are undone in reverse order; without a rollback nothing changes |
| `Controller.Controller.FindInstance` | tuned/daemon/controller.py:386-395 | The first listed instance of that name, or none if there is none |
| `Controller.Controller.InstanceAcquireDevices` | tuned/daemon/controller.py:379-420 | The loop that shrinks the wanted set does what the specification of the call says, each refusal included |
| `Controller.Controller.TakeOverFrom` | tuned/daemon/controller.py:521-531 | One step of the loop that takes matching devices over from an instance of equal or worse priority |
| `Controller.Controller.InstanceCreate` | tuned/daemon/controller.py:471-533 | Creation, tuning of matching free devices and taking over from other instances, each refusal included |
| `Controller.Controller.InstanceDestroy` | tuned/daemon/controller.py:535-574 | Undo, removal and handing on of the devices in some order, each refusal included |
| `RollbackStack.StorageKeyInjective` | tuned/plugins/base.py:435-442 | The keys of a plugin are injective, whatever the devices are called, exactly when no instance name extends another one and a command by a slash; plugin and command names have no slash |
| `RollbackStack.EqualKeys` | tuned/plugins/base.py:435-442 | Two equal keys are the same key, or one instance name extends the other one and its command |
| `RollbackStack.ExtendedCollides` | tuned/plugins/base.py:435-442 | An instance name that extends another one and its command collides with it, for every command and device |
| `RollbackStack.PlainNamesApart` | tuned/plugins/base.py:435-442 | An instance name without a slash extends no other one |
| `RollbackStack.StorageKeyCollides` | tuned/plugins/base.py:435-442 | Two concrete keys that are equal, with a slash in an instance name |
| `RollbackStack.UndoReversed` | tuned/plugins/base.py:620-647 | Commands done in order and undone in reverse restore everything, even on shared knobs |
| `RollbackStack.UndoPermuted` | tuned/plugins/base.py:628-629 | Operations on different knobs may be undone in any order |
| `RollbackStack.UndoGroup` | tuned/plugins/base.py:625-638 | The same for the devices of one command, each in its own order of doing and undoing |
| `RollbackStack.StopAfterStart` | tuned/plugins/base.py:344-359 | Groups done in order and undone in reverse restore every knob, even when several groups write the same one |
| `RollbackStack.InstanceRestores` | tuned/plugins/base.py:344-359 | Undoing an instance after applying it restores the state: device commands before the others, each kind reversed |
| `RollbackStack.StopRestoresAll` | tuned/units/manager.py:147-178 | Starting any list of instances with injective storage keys and stopping them in reverse restores every knob and empties the storage, whatever knobs they share |
| `RollbackStack.StartWrites` | tuned/units/manager.py:147-150 | After starting any list of instances, a knob they share holds what the last command to run on it asks for, its option if that is plain; a knob that no active instance addresses is untouched |
| `RollbackStack.Tuner.ExecuteCommand` | tuned/plugins/base.py:524-545 | Saves and writes one knob, or does neither |
| `RollbackStack.Tuner.CleanupCommand` | tuned/plugins/base.py:631-647 | Restores one knob and forgets its saved value |
| `RollbackStack.Tuner.OnTargets` | tuned/plugins/base.py:466-472 | One command on each of its targets, in some order that the method returns |
| `RollbackStack.Tuner.ApplyInstance` | tuned/plugins/base.py:344-346 | Non-device commands first, then the others |
| `RollbackStack.Tuner.UnapplyInstance` | tuned/plugins/base.py:356-359 | The same commands in reverse |
| `RollbackStack.Tuner.StartTuning` | tuned/units/manager.py:147-150 | The loop over the instances |
| `RollbackStack.Tuner.StopTuning` | tuned/units/manager.py:174-178 | The reversed loop over the instances |
| `PpdConfig.SizeCheckIsInjectivity` | tuned/ppd/config.py:125-142 | A mapping has as many values as keys exactly when it is injective |
| `PpdConfig.LoadedIsValid` | tuned/ppd/config.py:86-142 | Every configuration that loads maps the same power profiles on mains and on battery, injectively, with true inverses; `PpdFile.LoadedNames` says to what |
| `PpdFile.LoadedNames` | tuned/ppd/config.py:86-142 | On mains a power profile stands for its `[profiles]` entry, on battery for its `[battery]` entry if the battery is looked at and there is one, else for its `[profiles]` entry; the maps back and the default profile likewise |
| `PpdFile.SwitchAsks` | tuned/ppd/controller.py:431-441 | A switch runs the TuneD profile that the file names for the power source, unless TuneD refuses, and raises exactly for a profile that the file does not name |
| `PpdFile.StepAnswers` | tuned/ppd/controller.py:239-268 | What every call, signal, platform key and battery change leads to, in terms of the file and the holds, whatever TuneD answers |
| `PpdFile.RunRunsNamed` | tuned/ppd/controller.py:239-268 | Over any run, delivering the signals leaves TuneD with the profile that the file names for the active one at every moment, exactly when every event keeps track |
| `PpdFile.StartupBaseNamed` | tuned/ppd/controller.py:387-388 | The base profile on start-up: the saved one, else the one that TuneD's recommendation stands for in the file, else the default of the file |
| `PpdConfig.DuplicatesAreRefused` | tuned/ppd/config.py:99-142 | A file loads exactly when it passes the other checks and is injective on mains and on battery, and is refused for duplicates exactly when only that fails |
| `PpdModel.RunThenDrainSynced` | tuned/ppd/controller.py:239-268 | Under any interleaving of holds, switches, platform keys, battery changes, signals and outside switches, and whatever TuneD answers: at every moment, delivering the signals leaves the active profile unknown or TuneD on exactly its mapped profile, exactly when every event keeps track in the state it meets. Only a stopped TuneD can be lost sight of: by an outside switch, or by a battery change it refuses, to a profile that is not the mapped one and not announced |
| `PpdModel.RunningIsTracked` | tuned/ppd/controller.py:239-268 | While TuneD runs, every run ends with the two in step once the signals are delivered |
| `PpdModel.StepTrackedIff` | tuned/ppd/controller.py:365-376 | The exact condition under which one event leaves the two in step or with a signal for TuneD's current profile on its way |
| `PpdModel.BatteryTrackedIff` | tuned/ppd/controller.py:239-245 | The same for a battery change, from any state |
| `PpdModel.OutsideSwitchTrackedIff` | tuned/ppd/controller.py:247-268 | The same for a switch from outside |
| `PpdModel.DrainSyncedIff` | tuned/ppd/controller.py:247-268 | Delivering all signals brings the two in step exactly when track was kept |
| `PpdModel.SignalChangesIff` | tuned/ppd/controller.py:247-268 | While they agree no signal changes holds, base or active profile; the signal for TuneD's current profile changes the active one exactly when they do not |
| `PpdModel.SyncedAgrees` | tuned/ppd/config.py:125-142 | Being in step and agreeing are the same for a known profile, because the map can be inverted |
| `PpdModel.SilentSwitchIsMissed` | tuned/ppd/controller.py:247-268 | An outside switch of a stopped TuneD is not announced, and the two stay out of step |
| `PpdModel.SilentBatteryIsMissed` | tuned/ppd/controller.py:239-245 | A battery change that a stopped TuneD refuses to follow is never corrected |
| `PpdModel.RunLaw` | tuned/ppd/controller.py:148-211 | While TuneD accepts each switch: unknown with no holds, or power-saver if any hold asks for it, else performance if any hold exists, else the base profile |
| `PpdModel.StepLaw` | tuned/ppd/controller.py:327-339 | Every accepted event keeps that law |
| `PpdModel.StepLawIff` | tuned/ppd/controller.py:174-211 | For every event and any answer of TuneD, the exact condition under which the law is kept |
| `PpdModel.RunLawIff` | tuned/ppd/controller.py:148-211 | Over any run, whatever TuneD answers, the law holds in every state exactly when every event keeps it in the state it meets |
| `PpdModel.RefusedHoldBreaksLaw` | tuned/ppd/controller.py:174-186 | A refused hold stays in force without its profile |
| `PpdModel.InitializeStarts` | tuned/ppd/controller.py:378-392 | Initialisation raises exactly when a profile outside the map was saved; otherwise it starts tracked, and lawful if TuneD accepts |
| `PpdController.Controller.SetTunedProfile` | tuned/ppd/controller.py:365-376 | Asks TuneD to switch unless it has the profile already |
| `PpdController.Controller.SwitchProfile` | tuned/ppd/controller.py:431-441 | The active profile changes exactly when TuneD takes the mapped profile; a profile outside the map raises |
| `PpdController.Controller.EffectiveHoldProfile` | tuned/ppd/controller.py:148-154 | Power-saver exactly if some hold asks for it, else performance |
| `PpdController.Controller.ClearHolds` | tuned/ppd/controller.py:206-211 | No hold is left, and nothing else changes |
| `PpdController.Controller.Add` | tuned/ppd/controller.py:174-186 | The hold is added under its cookie, then the effective profile is switched to |
| `PpdController.Controller.Remove` | tuned/ppd/controller.py:194-204 | The hold is removed, then the effective or the base profile is switched to |
| `PpdController.Controller.OnHoldProfile` | tuned/ppd/controller.py:444-453 | Only performance and power-saver can be held |
| `PpdController.Controller.OnReleaseProfile` | tuned/ppd/controller.py:455-464 | An unknown cookie or a foreign caller is refused |
| `PpdController.Controller.OnCallerGone` | tuned/ppd/controller.py:136-146 | The hold of a vanished caller is removed |
| `PpdController.Controller.OnSetActiveProfile` | tuned/ppd/controller.py:473-485 | A known profile becomes the base and the active one, and all holds end |
| `PpdController.Controller.OnPlatformProfile` | tuned/ppd/controller.py:327-339 | A known platform profile ends all holds, is switched to and becomes the base profile, also when TuneD refuses the switch; any other content is ignored |
| `PpdController.Controller.OnBatteryChanged` | tuned/ppd/controller.py:239-245 | The active profile is applied again through the map of the new power source |
| `PpdController.Controller.OnTunedProfileChanged` | tuned/ppd/controller.py:247-268 | The oldest signal is handled as the specification says |
| `Expander.Parser.Process` | tuned/profiles/functions/parser.py:59-80 | For every text and function table the in-place parser computes what a left-to-right evaluator with a stack of output buffers computes, in at most one turn per character; at every turn each entry of its stack is at a `${` left of the cursor |
| `Documents.DocExpands` | tuned/profiles/functions/parser.py:59-80 | For text with calls nested to any depth: expanding the written form gives the value, in which each call is replaced by what its function makes of the values of its parts |
| `Documents.EvaluateParts` | tuned/profiles/functions/parser.py:41-53 | The function gets the name and the arguments, with `\:` turned into a colon; a call without a result stays |
| `Documents.CallExpands` | tuned/profiles/functions/parser.py:40-57 | A call in plain text is replaced by the result for its arguments, whatever they hold but call braces, colons written as `\:` |
| `Documents.PlainCallExpands` | tuned/profiles/functions/parser.py:40-57 | The same with arguments written as they are |
| `Documents.NestedCallExpands` | tuned/profiles/functions/parser.py:59-80 | A call within an argument is expanded first, and its result is part of the argument |
| `Documents.QuotedStays` | tuned/profiles/functions/parser.py:70-73 | A call after a backslash is left as it stands |
| `Expander.Parser.Substitute` | tuned/profiles/functions/parser.py:33-38 | The text in the range is replaced, and the cursor stands on the last character of the replacement, but never before the text |
| `Expander.Parser.ProcessFunc` | tuned/profiles/functions/parser.py:40-57 | A call is replaced by its value, left alone when it has none, and raises when it has no name |
| `Expander.Parser.Turn` | tuned/profiles/functions/parser.py:62-77 | One turn of the loop takes the parser where the step takes the evaluator, and ends it exactly when the step does |
| `Expander.Parser.CloseBrace` | tuned/profiles/functions/parser.py:63-71 | A closing brace takes the parser where it takes the evaluator |
| `Expander.StaysOpened` | tuned/profiles/functions/parser.py:59-80 | Every turn of the parser keeps each entry of the stack at a `${` left of the cursor |
| `Expander.StackAtOpenings` | tuned/profiles/functions/parser.py:30-31 | In a state where every frame starts with its `${`, so does the text at every entry of the stack |
| `Expander.StepFramesOpen` | tuned/profiles/functions/parser.py:59-80 | Every step keeps each open frame starting with its `${` |
| `Expander.StepIsCleanIff` | tuned/profiles/functions/parser.py:33-38 | A step agrees with an evaluator that skips nothing exactly unless an expansion leaves nothing before the cursor and something after it; the skipped character makes no difference exactly when it is neither `}` nor opens a call |
| `Expander.StepsAreCleanIff` | tuned/profiles/functions/parser.py:59-80 | The parser goes through the states of an evaluator that skips nothing, turn by turn, exactly when no state of the run is one where it skips |
| `Expander.ProcessIsClean` | tuned/profiles/functions/parser.py:59-80 | On every text that does not start with `${` nothing is skipped |
| `Expander.EvalIsCleanUnlessSkipping` | tuned/profiles/functions/parser.py:59-80 | The parser is the clean evaluator on every run that skips no brace |
| `Expander.SkippedCall` | tuned/profiles/functions/parser.py:36-38 | Two calls without output in a row at the start: the parser leaves the second unexpanded |
| `Expander.PlainText` | tuned/profiles/functions/parser.py:59-80 | Text without calls is left as it is |
| `Expander.OutputIsNotScanned` | tuned/profiles/functions/parser.py:59-80 | After any number of turns, whatever the functions return, what the parser has left to read is the end of the input |
| `Expander.StepReads` | tuned/profiles/functions/parser.py:33-38 | A turn reads one character of the input, or two exactly when it skips one |
| `Expander.SameStepIff` | tuned/profiles/functions/parser.py:33-38 | Two runs that have read the same go on with the same characters exactly when both skip one or none does |
| `Expander.SameOpenings` | tuned/profiles/functions/parser.py:59-80 | On a text that does not start with a call the same characters open and close calls, whatever the functions return |
| `Expander.OutputMatters` | tuned/profiles/functions/parser.py:36-38 | On `${f:e}${f:e}` the output of the first call decides whether the second is opened |
| `CpuMask.BitmaskToCpuList` | tuned/utils/commands.py:304-312 | The increasing list of exactly the set bits; empty for a negative number |
| `CpuMask.CpuListToBitmask` | tuned/utils/commands.py:433-437 | The mask with exactly the listed bits |
| `CpuMask.ListMaskList` | tuned/utils/commands.py:304-312 | List to mask to list is the strictly increasing list of the same CPUs |
| `CpuMask.MaskListMask` | tuned/utils/commands.py:433-437 | Mask to list to mask is the identity on every natural number |
| `CpuList.CpuListUnpack` | tuned/utils/commands.py:323-386 | For every token list: empty for a malformed token, else the increasing list of all ranges and masks without all negated ranges, masks reassembled up to the next empty token |
| `CpuTokens.UnpackSpec` | tuned/utils/commands.py:323-386 | For every token list, by the place of each token: the CPUs that some token lists and none negates, in increasing order; nothing when a token cannot be read |
| `CpuTokens.NegatedRange` | tuned/utils/commands.py:349-360 | `^lo-hi` or `!lo-hi` anywhere outside a mask takes exactly lo to hi out of the list |
| `CpuTokens.NegatedNumber` | tuned/utils/commands.py:349-360 | A negated number takes exactly that CPU out |
| `CpuTokens.ListedRange` | tuned/utils/commands.py:368-380 | A number or range adds exactly its CPUs that no token negates |
| `CpuTokens.ListedMask` | tuned/utils/commands.py:338-348 | A mask split at commas and closed by an empty token adds exactly its set bits that no token negates |
| `CpuTokens.UnpackJoined` | tuned/utils/commands.py:327-331 | A text is unpacked as the tokens between its commas, with or without quotes around it |
| `CpuList.Classify` | tuned/utils/commands.py:332-367 | The first pass keeps the meaning of the list while it puts masks together and sets negations apart |
| `CpuList.Collect` | tuned/utils/commands.py:368-380 | The second pass collects the CPUs of the items, or finds one malformed |
| `CpuList.UnpacksUnique` | tuned/utils/commands.py:323-386 | Only one list meets that specification |
| `CpuList.CpuListPack` | tuned/utils/commands.py:391-410 | The packed tokens are those of the maximal runs of the unpacked list |
| `CpuList.PackRuns` | tuned/utils/commands.py:395-410 | The loop over an increasing list finds its runs |
| `CpuList.RunsAreMaximal` | tuned/utils/commands.py:391-410 | No two runs touch |
| `CpuList.RunsCover` | tuned/utils/commands.py:391-410 | The runs cover exactly the listed CPUs |
| `CpuList.UnpackOfPack` | tuned/utils/commands.py:391-410 | Unpacking a packed list gives the unpacked list back |
| `CpuList.PackIsCanonical` | tuned/utils/commands.py:391-410 | Two token lists pack to the same tokens exactly when they unpack to the same CPUs |
| `CpuList.PackedTextComparesCpus` | tuned/plugins/plugin_scheduler.py:1077-1080 | Comparing the packed texts, as the cgroup verification does, compares the CPU sets |
| `CpuList.SpacedMaskIsMalformed` | tuned/utils/commands.py:314-386 | A mask or negation outside a mask is read as one exactly when no blank precedes it; with one the whole list is malformed, wherever it stands |
| `CpuList.MarkedIsNoRange` | tuned/utils/commands.py:369-379 | With or without blanks, the text of a mask or negation is not a decimal token |
| `CpuList.UnreadMalformed` | tuned/utils/commands.py:337-379 | One malformed token outside a mask spoils the list |
| `CpuList.DocumentedListsAreMalformed` | tuned/utils/commands.py:314-319 | The two examples of the documentation are such lists |
| `CpuList.HexGroupsAreEight` | tuned/utils/commands.py:419-431 | Every comma group of a printed mask has exactly eight hexadecimal digits |
| `CpuList.HexRoundTrip` | tuned/utils/commands.py:292-302 | A printed mask reads back as the CPUs it was made from |
| `CpuList.HexOfTokensRoundTrip` | tuned/utils/commands.py:419-431 | For every token list, printing it as a mask and reading the mask gives the unpacked list |
| `IncludeLoader.GetConfig` | tuned/profiles/locator.py:26-46 | The file of the last directory that has an unused one; nothing to load for a repeated or conditional name; missing otherwise |
| `IncludeLoader.LocateUnique` | tuned/profiles/locator.py:26-46 | Only one answer meets that specification |
| `IncludeLoader.LocateNamed` | tuned/profiles/locator.py:26-46 | A plain name is the file of that name in the last directory that has one which is not skipped; without one it is skipped if one was, else missing |
| `IncludeLoader.ConditionalName` | tuned/profiles/locator.py:28-44 | With a minus sign before it a name is located in the same way, but never missing |
| `IncludeLoader.LoadOne` | tuned/profiles/loader.py:72-86 | A name loads its file above what the includes load, nothing if it is skipped, and fails if it is missing |
| `IncludeLoader.LoadAppend` | tuned/profiles/loader.py:71-86 | Names load in their order, later ones after the files of the earlier ones, and not at all when these fail |
| `IncludeLoader.RepeatedName` | tuned/profiles/locator.py:26-46 | A repeated name gives the next lower directory's file or nothing to load, and is never missing |
| `IncludeLoader.Loader.LoadProfile` | tuned/profiles/loader.py:71-86 | Terminates on every include graph, cycles and self-includes included, and appends the profiles of the include forest in post-order |
| `IncludeLoader.Loader.LoadFile` | tuned/profiles/loader.py:78-86 | One file: its includes are loaded, then its profile is appended |
| `IncludeLoader.LoadsOnce` | tuned/profiles/loader.py:71-86 | No file is loaded twice, and every loaded file exists and parses |
| `IncludeLoader.IncludesFirst` | tuned/profiles/loader.py:82-86 | In every load, the profile of a file comes right after exactly the profiles that loading its includes gives, against the files processed before it |
| `IncludeLoader.ChildrenLoaded` | tuned/profiles/loader.py:78-86 | The files below a file are what loading its includes gives, at its place in the order the files are opened |
| `IncludeLoader.OrdersAgree` | tuned/profiles/loader.py:71-86 | Every processed file contributes exactly one profile |
| `IncludeLoader.LoadResolves` | tuned/profiles/loader.py:71-86 | A successful load resolves every requested name and every include of every loaded file by a loaded file, or finds none for a conditional name |
| `IncludeLoader.LocatedInOrder` | tuned/profiles/loader.py:71-86 | Every file is located for a name that was requested or included before, against exactly the files processed before it |
| `IncludeLoader.LoadFailure` | tuned/profiles/loader.py:76-77 | A load fails only for a name without any file or a file that does not parse |
| `Merger.MergeClosedForm` | tuned/profiles/merger.py:13-71 | Over any profiles, an option of a unit comes from its last definer since the last replacing (or first) occurrence unless a later occurrence drops it; without such a definer it is not set. The list of the script unit is the one of `Listing` |
| `Merger.MergeLookup` | tuned/profiles/merger.py:42-69 | The merged unit depends only on the units of its name, oldest first |
| `Merger.OptionClosedForm` | tuned/profiles/merger.py:60-69 | The closed form for the occurrences of one unit |
| `Merger.AttributesClosedForm` | tuned/profiles/merger.py:45-59 | Type, enabling and devices come from the last occurrence, the optional attributes from the last one that sets them |
| `Merger.ScriptsAppendIff` | tuned/profiles/merger.py:64-67 | Scripts are appended exactly when the newer unit has a `script` option or there is nothing to keep; else the list doubles |
| `Merger.ScriptsDouble` | tuned/profiles/merger.py:64-67 | A unit that lists one script and a later one without options: the script is listed twice |
| `Merger.ScriptsListed` | tuned/profiles/merger.py:60-69 | The merged script unit lists exactly the scripts of `Listing`, for all occurrences |
| `Merger.ScriptsClosedForm` | tuned/profiles/merger.py:60-69 | Since the list was last started anew each script is listed once, doubled by every later occurrence without a list of its own |
| `Merger.ScriptsConcatenate` | tuned/profiles/merger.py:60-67 | When all script units list scripts, `Listing` is all listed scripts, oldest first, since the list was last started anew |
| `Merger.DropOptions` | tuned/profiles/merger.py:60-63 | Exactly the named options are gone, the others keep their order |
| `Merger.MergeVariables` | tuned/profiles/merger.py:33-41 | With `prepend` the new variables come first in their own order, then the old ones in theirs; without it they come last; newer values win; `replace` drops the old ones |
| `MergeOrder.VariablesOrder` | tuned/profiles/merger.py:33-41 | Known variables keep their order and new ones that of the unit; with `prepend` the new ones come before the known ones, without it after them; with `replace` nothing was known |
| `MergeOrder.MergedUnitOrder` | tuned/profiles/merger.py:32-43 | Over any profiles the merged units are those of all names, once each, and one comes before another exactly when it occurs before the other one's first occurrence |
| `MergeOrder.MergedHead` | tuned/profiles/merger.py:27-30 | The merged profile has the name of the first profile with one, and each option from the last profile that sets it |
| `MergeOrder.MergedProper` | tuned/profiles/merger.py:44-69 | Every option of a merged unit is listed once |
| `Merger.VariablesClosedForm` | tuned/profiles/merger.py:13-41 | Over any profiles, the value of a variable comes from the last variables unit that sets it since the last replacing one; without such a unit it is not set |
| `Merger.UpdateVariables` | tuned/profiles/merger.py:37-37 | The update keeps the place of known keys and appends new ones in order |
| `Merger.PrependNew` | tuned/profiles/merger.py:38-41 | Moving the new variables to the front one by one, last one first, leaves them in their own order |
| `Merger.MergedVariablesProper` | tuned/profiles/merger.py:33-41 | Merged variables are listed once each |
| `Merger.MergedProfile.AddUnit` | tuned/profiles/merger.py:32-69 | One unit is merged in place as specified |
| `Merger.MergedProfile.Add` | tuned/profiles/merger.py:21-71 | One profile is merged in place as specified |
| `Merger.MergeAll` | tuned/profiles/merger.py:13-19 | The reduction over all profiles is the fold of the closed form |
| `Uncore.SetLimitInRange` | tuned/plugins/plugin_uncore.py:103-136 | From initial_min <= min <= max <= initial_max no request leaves that range, and it moves only the limit it names |
| `Uncore.PercentInRange` | tuned/plugins/plugin_uncore.py:151-166 | A percentage is that part of the initial range in whole kilohertz, inside the range, with 0 and 100 at its ends |
| `Uncore.NumberSets` | tuned/plugins/plugin_uncore.py:103-136 | A number sets its limit to that frequency, capped to the initial range and refused on the wrong side of the other limit, after the old one was saved |
| `Uncore.PercentSets` | tuned/plugins/plugin_uncore.py:138-168 | A percentage sets the limit to that part of the range in the same way; one above 100 is refused |
| `Uncore.ModifierSets` | tuned/plugins/base.py:494-516 | With `>` or `<` a number sets the limit only to raise or to lower it; else nothing is saved or set |
| `Uncore.ExecuteAllAppend` | tuned/plugins/base.py:466-472 | The settings are executed one after the other, up to the first empty text |
| `Uncore.PercentNeverCapped` | tuned/plugins/plugin_uncore.py:151-166 | A percentage is refused exactly on the wrong side of the other limit, and never capped |
| `Uncore.ExecuteCleanup` | tuned/plugins/base.py:631-638 | Undoing one command is neither refused nor capped and restores the device |
| `Uncore.CleanupRestoresIff` | tuned/plugins/base.py:625-638 | For any requested texts, failing writes and order of the limits, the limits stay in range, and the reverse-order cleanup restores both frequencies and forgets the saved values exactly when each write that puts a changed limit back succeeds |
| `Uncore.ForwardCleanupIff` | tuned/plugins/base.py:625-629 | Restoring the maximum first would work exactly when the new minimum is not above the old maximum |
| `Uncore.ForwardCleanupFails` | tuned/plugins/base.py:625-629 | A concrete case where it would not |
| `Uncore.Plugin.SetFreq` | tuned/plugins/plugin_uncore.py:168-204 | The limit is set to the validated value if there is one and the write works, and the range is kept |
| `Uncore.Plugin.ExecuteCommand` | tuned/plugins/base.py:524-537 | The current limit is saved before it is set |
| `Uncore.Plugin.ExecuteAllCommands` | tuned/plugins/base.py:466-472 | The loop over the limits, ended by an exception for an empty text |
| `Uncore.Plugin.CleanupCommand` | tuned/plugins/base.py:631-638 | The saved limit is written back and forgotten |
| `Uncore.Plugin.CleanupAllCommands` | tuned/plugins/base.py:625-629 | The reversed loop over the limits |
| `Scheduler.RunThenRestore` | tuned/plugins/plugin_scheduler.py:1017-1037 | After any interleaving of timely process events, outside changes, tuning, exit notices and restorations, a restoration returns to every living process with unchanged command line exactly the policy, priority and affinity from before its first tuning, and touches no other |
| `Scheduler.RunInvIff` | tuned/plugins/plugin_scheduler.py:726-838 | Over any run, the originals of every living process are its values from before its first tuning in every state, exactly when every event is timely: no process gets the PID of a tuned one whose exit was not noticed, and no notice for a tuned process comes while its PID is alive |
| `Scheduler.RunInv` | tuned/plugins/plugin_scheduler.py:726-838 | As long as the events are timely they are |
| `Scheduler.StepInv` | tuned/plugins/plugin_scheduler.py:1104-1133 | Every event keeps that exactly when it is timely |
| `Scheduler.BackIsOriginal` | tuned/plugins/plugin_scheduler.py:43-55 | The affinity survives its encoding as a bit mask |
| `Scheduler.RestoresRtIff` | tuned/plugins/plugin_scheduler.py:726-734 | Tuning and restoring a process gives policy and priority back exactly when no other values were left under its PID |
| `Scheduler.RestoresAffinityIff` | tuned/plugins/plugin_scheduler.py:761-771 | The same for the affinity |
| `Scheduler.ReusedPid` | tuned/plugins/plugin_scheduler.py:1024-1031 | A PID and command line used again unnoticed: the old process's values reach the new one |
| `Scheduler.LateNotice` | tuned/plugins/plugin_scheduler.py:1128-1133 | A late exit notice drops the originals of a living process; tuned again, its tuned values are taken for the originals |
| `Scheduler.TuningIsEvents` | tuned/plugins/plugin_scheduler.py:831-838 | Tuning a process is made of the events of the runs |
| `Scheduler.TuningSets` | tuned/plugins/plugin_scheduler.py:736-838 | Tuning sets the requested policy, or keeps it, with the priority, and exactly the CPUs of the affinity, where the process can be read and the kernel accepts it; it touches no other process |
| `Scheduler.TuningSaves` | tuned/plugins/plugin_scheduler.py:726-772 | The first values seen are saved, and later ones do not replace them |
| `Scheduler.Plugin.StoreOrigRt` | tuned/plugins/plugin_scheduler.py:726-734 | Only the first policy and priority are kept |
| `Scheduler.Plugin.StoreOrigAffinity` | tuned/plugins/plugin_scheduler.py:761-771 | Only the first affinity is kept |
| `Scheduler.Plugin.TuneProcessRt` | tuned/plugins/plugin_scheduler.py:736-756 | Reads, sets and stores; a vanished process is dropped, an unreadable one left alone |
| `Scheduler.Plugin.TuneProcessAffinity` | tuned/plugins/plugin_scheduler.py:800-828 | The same for the affinity |
| `Scheduler.Plugin.TuneProcess` | tuned/plugins/plugin_scheduler.py:831-838 | Both, then the command line is noted for a tracked process |
| `Scheduler.Plugin.AddPid` | tuned/plugins/plugin_scheduler.py:1104-1126 | A process is tuned exactly when a rule matches it, it is not tracked yet, and it is not an excluded kernel thread |
| `Scheduler.Plugin.RemovePid` | tuned/plugins/plugin_scheduler.py:1128-1133 | The process is no longer tracked |
| `Scheduler.Plugin.RestorePs` | tuned/plugins/plugin_scheduler.py:1017-1037 | The loop over the originals, in any order, restores each recognised process and forgets all originals; nothing happens when the processes cannot be listed |
| `RpmOstree.RunAccountedIff` | tuned/plugins/plugin_bootloader.py:500-524 | Over any run, refused removals and failing updates included: in every state the arguments are the user's plus the recorded ones as multisets, and the two share no value, exactly when each removal is accepted or meets an empty record |
| `RpmOstree.RunNeverRaises` | tuned/plugins/plugin_bootloader.py:509-511 | No update of any run raises |
| `RpmOstree.RunAccounted` | tuned/plugins/plugin_bootloader.py:500-524 | After any run whose removals are accepted, updates failing or not, the arguments are accounted for and a further removal restores exactly the user's |
| `RpmOstree.UpdateKeeps` | tuned/plugins/plugin_bootloader.py:500-524 | An update keeps the account and records exactly the profile's arguments that the user does not have |
| `RpmOstree.UpdateApplies` | tuned/plugins/plugin_bootloader.py:512-524 | Every argument of the profile is then active |
| `RpmOstree.UpdateActive` | tuned/plugins/plugin_bootloader.py:512-524 | After an update that goes through each argument is there as often as the user has it, and as often as the profile lists it if the user has it not at all |
| `RpmOstree.UpdateTwice` | tuned/plugins/plugin_bootloader.py:516-520 | A second update with the same profile changes nothing |
| `RpmOstree.RemoveEachSpec` | tuned/plugins/plugin_bootloader.py:509-511 | Removing the recorded arguments raises exactly when one of them is missing |
| `RpmOstree.RemoveRestoresIff` | tuned/plugins/plugin_bootloader.py:385-388 | Removal restores the user's arguments exactly when rpm-ostree accepts it or nothing was recorded |
| `RpmOstree.RefusedRemovalAdopts` | tuned/plugins/plugin_bootloader.py:385-388 | After any refused removal with something recorded, the left-over arguments count as the user's |
| `RpmOstree.Bootloader.ModifyKargs` | tuned/plugins/plugin_bootloader.py:298-313 | All deletions and additions, or none |
| `RpmOstree.Bootloader.UpdateKargs` | tuned/plugins/plugin_bootloader.py:500-524 | The update in place, which keeps the account for every user part it holds for |
| `RpmOstree.Bootloader.RemoveTuning` | tuned/plugins/plugin_bootloader.py:385-388 | The record is cleared even when the deletion fails |
| `Lifecycle.RunInv` | tuned/daemon/daemon.py:349-402 | In every run of start, stop, switch, reload and disable, a running worker has a loaded profile, it is the one it was started with, and it is the one the active and post-loaded names stand for |
| `Lifecycle.WorkerKeepsProfile` | tuned/daemon/daemon.py:127-158 | As long as the same worker is alive the loaded profile is not exchanged |
| `Lifecycle.SwitchSpec` | tuned/daemon/controller.py:189-214 | A switch succeeds exactly when the requested profiles load; then the daemon has the profile of exactly those names and runs it if it ran. A failed one leaves profile, mode, active list and post-loaded profile unchanged and the daemon running exactly if it was |
| `Lifecycle.ReloadSpec` | tuned/daemon/controller.py:175-187 | A reload succeeds exactly when the configuration can be read, names at most one post-loaded profile, and there are configured profiles and they load; then the daemon runs the profile of exactly those names |
| `Lifecycle.WordsSpec` | tuned/daemon/daemon.py:101-125 | Blanks separate the profile names, as many as there are |
| `Lifecycle.FailedReload` | tuned/daemon/controller.py:175-187 | A failed reload leaves the daemon stopped, and without profile unless the configuration could not be read |
| `Lifecycle.DisableSpec` | tuned/daemon/controller.py:265-273 | Disabling leaves a stopped daemon without profile, which cannot be started |
| `Lifecycle.Daemon.LoadProfiles` | tuned/daemon/daemon.py:101-125 | All fields are set, or none when a profile is unknown or invalid |
| `Lifecycle.Daemon.Set` | tuned/daemon/daemon.py:127-134 | Refused while running |
| `Lifecycle.Daemon.SetAllProfiles` | tuned/daemon/daemon.py:136-158 | Refused while running; a failure keeps the new post-loaded name |
| `Lifecycle.Daemon.Init` | tuned/daemon/daemon.py:76-99 | Everything is reset before the configured profiles are loaded |
| `Lifecycle.Daemon.StartWorker` | tuned/daemon/daemon.py:355-368 | Starts exactly when stopped and a profile is loaded |
| `Lifecycle.Daemon.StopWorker` | tuned/daemon/daemon.py:392-402 | The worker is gone, and nothing else changes |
| `Lifecycle.Controller.Start` | tuned/daemon/controller.py:150-158 | Answers whether the daemon runs afterwards |
| `Lifecycle.Controller.Stop` | tuned/daemon/controller.py:160-172 | The daemon is stopped |
| `Lifecycle.Controller.ReloadConfig` | tuned/daemon/controller.py:175-187 | Stop, reload, start as specified, keeping the invariant |
| `Lifecycle.Controller.SwitchProfile` | tuned/daemon/controller.py:189-214 | As specified, keeping the invariant; the name of the loaded profile is only asked for when there is one |
| `Lifecycle.Controller.DisableTuning` | tuned/daemon/controller.py:265-273 | As specified, keeping the invariant |
| `Text.SplitOfJoin` | tuned/utils/commands.py:419-431 | Splitting undoes joining when no part holds the separator |
| `Text.ParseIntOfPrint` | tuned/utils/commands.py:391-410 | A printed number reads back as itself |
| `Text.ParseIntSigned` | tuned/plugins/base.py:494-516 | A number with blanks around it and a sign before it is read as such |

## Left out

- Dynamic tuning, monitors, custom commands, device scripts and verification of applied profiles; every instance is taken to have static tuning.
- In the device system (`PluginModel` to `AcquireCalls`) knobs are independent and readable, and commands have a device. Shared knobs and commands without a device are in `RollbackStack`, without hot-plugging.
- Writes to a knob whose value cannot be read: TuneD saves nothing for them, so nothing can be restored.
- Exceptions inside a plugin in the middle of a start-up or an event, other than those named in the table.
- Owners.StartUpInstances: the options are the ones given; the plugin's own defaults and the removal of unknown options are not modelled.
- Documents.DocExpands: the document has no single `$` or `}` of its own, no call right after an escaping backslash that is not quoted as a whole, no argument whose value ends with a backslash, no call inside an argument whose result has a colon, and for the in-place parser no call right after a first call without output; such texts are covered by `Expander.Parser.Process` only.
- Device expressions with `fnmatch` and udev properties: the matcher is an arbitrary predicate of expression and device.
- The regular expressions that decide whether a unit fits CPU information and uname: they are flags of the unit.
- StartUp.StartUpThenRunBest: runs without an explicit acquire; with one the order holds exactly under the condition of `AcquireCalls.AcquireBestIff`.
- Controller.Controller.InstanceDestroy: the order in which the devices are handed on is any order; the source uses the order of a Python set.
- PpdModel.RunLaw: only while TuneD accepts the requests; `PpdModel.RunLawIff` says what a refusal does.
- In `PpdModel` TuneD has no post-loaded profile: with one, the profile it announces is not the one it reports as active, and tuned-ppd ignores every signal.
- The D-Bus, polkit, inotify and unix-socket plumbing of all services, the properties tuned-ppd publishes, and its saved base profile file.
- The performance-degraded property of tuned-ppd and its reasons.
- The last step of `expand`, a regular expression that turns `\${` into `${`, and variable expansion.
- Non-ASCII digits and white space, which Python's `int` and `split` also accept.
- CPU lists given as anything but a text or a list of texts.
- The parsing of profile files and the profile directory prefix of scripts: an include graph is a function from files to names.
- Merger.ScriptsClosedForm: the `script` options are lists, as the loader makes them.
- Uncore.PercentInRange: the source divides in floating point; the model takes the exact quotient, rounded down.
- Scheduler.RunThenRestore: needs timely events; `Scheduler.RunInvIff` shows that the originals are right exactly then, `Scheduler.RestoresRtIff` and `Scheduler.RestoresAffinityIff` say when a restoration is right in any state, and `Scheduler.ReusedPid` and `Scheduler.LateNotice` show the failures.
- Cgroup affinities, IRQ affinities and the perf thread of the scheduler plugin.
- The text file that records the kernel arguments, the grub2 and bootc variants of the bootloader plugin, and the order in which rpm-ostree keeps arguments.
- Threads inside the daemon, SIGHUP and the waiting for other calls: the control calls are atomic steps. One-shot mode, in which the worker ends by itself.
- The files that keep the active and post-loaded profile: what they hold at a reload is arbitrary.
